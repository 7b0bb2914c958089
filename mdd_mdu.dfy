/** The MDD/MDU evaluator: multiple down (up) days in the last five closes
    inside the trend, with SMA_5 exits. */
module MddMduStrategy {
  import opened Common
  import opened Frames
  import opened Signals

  const RequiredColumns: set<Column> := {Close, Sma200, Sma5}

  /** Five prior bars plus the current one, and every required column. */
  predicate Sufficient(data: Frame)
  {
    |data.rows| >= 6 && RequiredColumns <= data.columns
  }

  const LongEntryStatus := "Long entry signal detected (MDD)"
  const ShortEntryStatus := "Short entry signal detected (MDU)"

  /** `(closes.diff().dropna() < 0).sum()`: the steps whose value is strictly
      below the one before; a step touching a NaN is dropped. */
  function DownDays(w: seq<Option<real>>): (n: nat)
    ensures |w| >= 1 ==> n <= |w| - 1
  {
    if |w| < 2 then 0
    else DownDays(w[..|w| - 1]) + (if Lt(w[|w| - 1], w[|w| - 2]) then 1 else 0)
  }

  /** `(closes.diff().dropna() > 0).sum()` */
  function UpDays(w: seq<Option<real>>): (n: nat)
    ensures |w| >= 1 ==> n <= |w| - 1
  {
    if |w| < 2 then 0
    else UpDays(w[..|w| - 1]) + (if Gt(w[|w| - 1], w[|w| - 2]) then 1 else 0)
  }

  /** Every step is a down day exactly when the window falls strictly. */
  lemma {:induction false} AllDownDays(w: seq<Option<real>>)
    requires |w| >= 1
    ensures DownDays(w) == |w| - 1 <==> StrictlyFalling(w)
    decreases |w|
  {
    if |w| >= 2 {
      var p := w[..|w| - 1];
      AllDownDays(p);
      assert forall j :: 0 <= j < |p| ==> p[j] == w[j];
      if StrictlyFalling(w) {
        assert Lt(w[|w| - 1], w[|w| - 2]);
        assert StrictlyFalling(p);
      }
    }
  }

  /** Every step is an up day exactly when the window rises strictly. */
  lemma {:induction false} AllUpDays(w: seq<Option<real>>)
    requires |w| >= 1
    ensures UpDays(w) == |w| - 1 <==> StrictlyRising(w)
    decreases |w|
  {
    if |w| >= 2 {
      var p := w[..|w| - 1];
      AllUpDays(p);
      assert forall j :: 0 <= j < |p| ==> p[j] == w[j];
      if StrictlyRising(w) {
        assert Gt(w[|w| - 1], w[|w| - 2]);
        assert StrictlyRising(p);
      }
    }
  }

  /** `check_mdd_mdu_conditions(data)` */
  function CheckMddMdu(data: Frame): (r: EntryExit)
    ensures !Sufficient(data) ==> r == EntryExit(false, false, false, false, InsufficientStatus)
    ensures r.longExit <==> Sufficient(data) && Gt(Latest(data).close, Latest(data).sma5)
    ensures r.shortExit <==> Sufficient(data) && Lt(Latest(data).close, Latest(data).sma5)
    ensures r.longEntry ==> Sufficient(data) && Uptrend(Latest(data))
    ensures r.shortEntry ==> Sufficient(data) && Downtrend(Latest(data))
    ensures !(r.longExit && r.shortExit) && !(r.longEntry && r.shortEntry)
    ensures r.longEntry ==> r.shortExit && !r.longExit
    ensures r.shortEntry ==> r.longExit && !r.shortExit
    ensures Sufficient(data) ==> r.status == EntryExitStatus(r, LongEntryStatus, ShortEntryStatus)
  {
    if !Sufficient(data) then EntryExit(false, false, false, false, InsufficientStatus)
    else
      var latest := Latest(data);
      var closes := Window(data, Close, 5);
      var longEntry := Uptrend(latest) && Lt(latest.close, latest.sma5) && DownDays(closes) >= 4;
      var s1 := if longEntry then LongEntryStatus else NoSignal;
      var longExit := Gt(latest.close, latest.sma5);
      var s2 := if longExit && s1 == NoSignal then LongExitStatus else s1;
      var shortEntry := Downtrend(latest) && Gt(latest.close, latest.sma5) && UpDays(closes) >= 4;
      var s3 := if shortEntry then ShortEntryStatus else s2;
      var shortExit := Lt(latest.close, latest.sma5);
      var s4 := if shortExit && s3 == NoSignal then ShortExitStatus else s3;
      EntryExit(longEntry, longExit, shortEntry, shortExit, s4)
  }

  /** `down_days >= 4` over five closes means all four changes are down, and
      `up_days >= 4` that all four are up. */
  lemma MddMduEntries(data: Frame)
    requires Sufficient(data)
    ensures CheckMddMdu(data).longEntry <==>
              Uptrend(Latest(data)) && Lt(Latest(data).close, Latest(data).sma5) &&
              StrictlyFalling(Window(data, Close, 5))
    ensures CheckMddMdu(data).shortEntry <==>
              Downtrend(Latest(data)) && Gt(Latest(data).close, Latest(data).sma5) &&
              StrictlyRising(Window(data, Close, 5))
  {
    AllDownDays(Window(data, Close, 5));
    AllUpDays(Window(data, Close, 5));
  }
}
