/** The %b evaluator: three days of Bollinger %b beyond a threshold inside the
    trend, with %b exits. The %b values themselves are inputs (see README). */
module PercentBStrategy {
  import opened Common
  import opened Frames
  import opened Signals

  const RequiredColumns: set<Column> := {Close, Sma200, PercentB}

  predicate Sufficient(data: Frame)
  {
    |data.rows| >= 3 && RequiredColumns <= data.columns
  }

  const LongEntryStatus := "Long entry signal detected"
  const ShortEntryStatus := "Short entry signal detected"

  predicate AllBelow(w: seq<Option<real>>, bound: real)
  {
    forall j :: 0 <= j < |w| ==> Lt(w[j], Some(bound))
  }

  predicate AllAbove(w: seq<Option<real>>, bound: real)
  {
    forall j :: 0 <= j < |w| ==> Gt(w[j], Some(bound))
  }

  /** A three-value window is beyond a bound exactly when each value is. */
  lemma ThreeBeyond(a: Option<real>, b: Option<real>, c: Option<real>, bound: real)
    ensures AllBelow([a, b, c], bound) <==> Lt(a, Some(bound)) && Lt(b, Some(bound)) && Lt(c, Some(bound))
    ensures AllAbove([a, b, c], bound) <==> Gt(a, Some(bound)) && Gt(b, Some(bound)) && Gt(c, Some(bound))
  {
    var w := [a, b, c];
    assert w[0] == a && w[1] == b && w[2] == c;
  }

  /** `check_percent_b_conditions(data)` */
  function CheckPercentB(data: Frame): (r: EntryExit)
    ensures !Sufficient(data) ==> r == EntryExit(false, false, false, false, InsufficientStatus)
    ensures r.longEntry <==>
              Sufficient(data) && Uptrend(Latest(data)) && AllBelow(Window(data, PercentB, 3), 0.2)
    ensures r.shortEntry <==>
              Sufficient(data) && Downtrend(Latest(data)) && AllAbove(Window(data, PercentB, 3), 0.8)
    ensures r.longExit <==> Sufficient(data) && Gt(Latest(data).percentB, Some(0.8))
    ensures r.shortExit <==> Sufficient(data) && Lt(Latest(data).percentB, Some(0.2))
    ensures r.longEntry ==> r.shortExit && !r.longExit
    ensures r.shortEntry ==> r.longExit && !r.shortExit
    ensures !(r.longEntry && r.shortEntry) && !(r.longExit && r.shortExit)
    ensures Sufficient(data) ==> r.status == EntryExitStatus(r, LongEntryStatus, ShortEntryStatus)
  {
    if !Sufficient(data) then EntryExit(false, false, false, false, InsufficientStatus)
    else
      var latest, prev1, prev2 := Latest(data), Back(data, 1), Back(data, 2);
      assert Window(data, PercentB, 3) == [prev2.percentB, prev1.percentB, latest.percentB];
      ThreeBeyond(prev2.percentB, prev1.percentB, latest.percentB, 0.2);
      ThreeBeyond(prev2.percentB, prev1.percentB, latest.percentB, 0.8);
      var longEntry := Uptrend(latest) && Lt(latest.percentB, Some(0.2)) && Lt(prev1.percentB, Some(0.2)) &&
                       Lt(prev2.percentB, Some(0.2));
      var s1 := if longEntry then LongEntryStatus else NoSignal;
      var longExit := Gt(latest.percentB, Some(0.8));
      var s2 := if longExit && s1 == NoSignal then LongExitStatus else s1;
      var shortEntry := Downtrend(latest) && Gt(latest.percentB, Some(0.8)) && Gt(prev1.percentB, Some(0.8)) &&
                        Gt(prev2.percentB, Some(0.8));
      var s3 := if shortEntry then ShortEntryStatus else s2;
      var shortExit := Lt(latest.percentB, Some(0.2));
      var s4 := if shortExit && s3 == NoSignal then ShortExitStatus else s3;
      EntryExit(longEntry, longExit, shortEntry, shortExit, s4)
  }
}
