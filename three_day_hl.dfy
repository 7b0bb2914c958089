/** The 3-day high/low evaluator: four bars of strictly lower (higher) highs
    and lows inside the trend, against SMA_5. It has no column check, so a
    missing column surfaces as a KeyError. */
module ThreeDayHLStrategy {
  import opened Common
  import opened Frames
  import opened Signals

  /** The columns read, in the order the source first indexes them. */
  const ReadColumns: set<Column> := {Close, Sma200, Sma5, High, Low}

  /** The name of the first column `latest[...]` fails on. */
  function MissingColumn(columns: set<Column>): (key: string)
    requires !(ReadColumns <= columns)
    ensures key in {"Close", "SMA_200", "SMA_5", "High", "Low"}
    ensures key == "Close" <==> Close !in columns
    ensures key == "SMA_200" <==> Close in columns && Sma200 !in columns
    ensures key == "SMA_5" <==> Close in columns && Sma200 in columns && Sma5 !in columns
    ensures key == "High" <==> Close in columns && Sma200 in columns && Sma5 in columns && High !in columns
    ensures key == "Low" <==> Close in columns && Sma200 in columns && Sma5 in columns && High in columns && Low !in columns
  {
    if Close !in columns then "Close"
    else if Sma200 !in columns then "SMA_200"
    else if Sma5 !in columns then "SMA_5"
    else if High !in columns then "High"
    else "Low"
  }

  /** `check_three_day_hl_conditions(data)`: the long rule returns first. */
  function CheckThreeDayHL(data: Frame): (r: Outcome<HighLow>)
    ensures |data.rows| < 4 ==> r == Ok(HighLow(false, false, "Insufficient data"))
    ensures r.KeyError? <==> |data.rows| >= 4 && !(ReadColumns <= data.columns)
    ensures r.Ok? && r.value.longSignal <==>
              |data.rows| >= 4 && ReadColumns <= data.columns &&
              Uptrend(Latest(data)) && Lt(Latest(data).close, Latest(data).sma5) &&
              StrictlyFalling(Window(data, High, 4)) && StrictlyFalling(Window(data, Low, 4))
    ensures r.Ok? && r.value.shortSignal <==>
              |data.rows| >= 4 && ReadColumns <= data.columns &&
              Downtrend(Latest(data)) && Gt(Latest(data).close, Latest(data).sma5) &&
              StrictlyRising(Window(data, High, 4)) && StrictlyRising(Window(data, Low, 4))
    ensures r.Ok? ==> !(r.value.longSignal && r.value.shortSignal)
    ensures r.Ok? && |data.rows| >= 4 ==>
              r.value.status == (if r.value.longSignal then "Long signal detected"
                                 else if r.value.shortSignal then "Short signal detected"
                                 else "No signal")
  {
    if |data.rows| < 4 then Ok(HighLow(false, false, "Insufficient data"))
    else if !(ReadColumns <= data.columns) then KeyError(MissingColumn(data.columns))
    else
      var latest, prev1, prev2, prev3 := Latest(data), Back(data, 1), Back(data, 2), Back(data, 3);
      assert Window(data, High, 4) == [prev3.high, prev2.high, prev1.high, latest.high];
      assert Window(data, Low, 4) == [prev3.low, prev2.low, prev1.low, latest.low];
      FallingFour(prev3.high, prev2.high, prev1.high, latest.high);
      FallingFour(prev3.low, prev2.low, prev1.low, latest.low);
      var lowerHighs := Lt(latest.high, prev1.high) && Lt(prev1.high, prev2.high) && Lt(prev2.high, prev3.high);
      var lowerLows := Lt(latest.low, prev1.low) && Lt(prev1.low, prev2.low) && Lt(prev2.low, prev3.low);
      if Uptrend(latest) && Lt(latest.close, latest.sma5) && lowerHighs && lowerLows then
        Ok(HighLow(true, false, "Long signal detected"))
      else
        var higherHighs := Gt(latest.high, prev1.high) && Gt(prev1.high, prev2.high) && Gt(prev2.high, prev3.high);
        var higherLows := Gt(latest.low, prev1.low) && Gt(prev1.low, prev2.low) && Gt(prev2.low, prev3.low);
        if Downtrend(latest) && Gt(latest.close, latest.sma5) && higherHighs && higherLows then
          Ok(HighLow(false, true, "Short signal detected"))
        else
          Ok(HighLow(false, false, "No signal"))
  }
}
