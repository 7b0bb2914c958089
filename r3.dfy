/** The R3 evaluator: three falling (rising) days of RSI_2 starting below 60
    (above 40) and ending below 10 (above 90), with RSI_2 exits. */
module R3Strategy {
  import opened Common
  import opened Frames
  import opened Signals

  const RequiredColumns: set<Column> := {Close, Sma200, Rsi2}

  /** Four bars (the oldest of them is read but not used) and every required column. */
  predicate Sufficient(data: Frame)
  {
    |data.rows| >= 4 && RequiredColumns <= data.columns
  }

  const LongEntryStatus := "Long entry signal detected"
  const ShortEntryStatus := "Short entry signal detected"

  /** `check_r3_conditions(data)`, the flags set and the status overwritten in
      source order. */
  function CheckR3(data: Frame): (r: EntryExit)
    ensures !Sufficient(data) ==> r == EntryExit(false, false, false, false, InsufficientStatus)
    ensures r.longEntry <==>
              Sufficient(data) && Uptrend(Latest(data)) && StrictlyFalling(Window(data, Rsi2, 3)) &&
              Lt(Back(data, 2).rsi2, Some(60.0)) && Lt(Latest(data).rsi2, Some(10.0))
    ensures r.longExit <==> Sufficient(data) && Gt(Latest(data).rsi2, Some(70.0))
    ensures r.shortEntry <==>
              Sufficient(data) && Downtrend(Latest(data)) && StrictlyRising(Window(data, Rsi2, 3)) &&
              Gt(Back(data, 2).rsi2, Some(40.0)) && Gt(Latest(data).rsi2, Some(90.0))
    ensures r.shortExit <==> Sufficient(data) && Lt(Latest(data).rsi2, Some(30.0))
    ensures !(r.longEntry && r.longExit) && !(r.shortEntry && r.shortExit)
    ensures !(r.longEntry && r.shortEntry) && !(r.longExit && r.shortExit)
    ensures Sufficient(data) ==> r.status == EntryExitStatus(r, LongEntryStatus, ShortEntryStatus)
  {
    if !Sufficient(data) then EntryExit(false, false, false, false, InsufficientStatus)
    else
      var latest, prev1, prev2 := Latest(data), Back(data, 1), Back(data, 2);
      assert Window(data, Rsi2, 3) == [prev2.rsi2, prev1.rsi2, latest.rsi2];
      FallingThree(prev2.rsi2, prev1.rsi2, latest.rsi2);
      var longEntry := Uptrend(latest) && Lt(latest.rsi2, prev1.rsi2) && Lt(prev1.rsi2, prev2.rsi2) &&
                       Lt(prev2.rsi2, Some(60.0)) && Lt(latest.rsi2, Some(10.0));
      var s1 := if longEntry then LongEntryStatus else NoSignal;
      var longExit := Gt(latest.rsi2, Some(70.0));
      var s2 := if longExit && s1 == NoSignal then LongExitStatus else s1;
      var shortEntry := Downtrend(latest) && Gt(latest.rsi2, prev1.rsi2) && Gt(prev1.rsi2, prev2.rsi2) &&
                        Gt(prev2.rsi2, Some(40.0)) && Gt(latest.rsi2, Some(90.0));
      var s3 := if shortEntry then ShortEntryStatus else s2;
      var shortExit := Lt(latest.rsi2, Some(30.0));
      var s4 := if shortExit && s3 == NoSignal then ShortExitStatus else s3;
      EntryExit(longEntry, longExit, shortEntry, shortExit, s4)
  }
}
