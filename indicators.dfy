/** utils/financial_calculations.py: the rolling SMA and RSI over the Close
    column, and `calculate_indicators`, which adds the indicator columns to the
    caller's DataFrame in place. */
module Indicators {
  import opened Common
  import opened Frames

  // ---------------------------------------------------------------------
  // Arithmetic over windows
  // ---------------------------------------------------------------------

  function Sum(s: seq<real>): real
  {
    if |s| == 0 then 0.0 else Sum(s[..|s| - 1]) + s[|s| - 1]
  }

  function Mean(s: seq<real>): real
    requires |s| > 0
  {
    Sum(s) / |s| as real
  }

  function Min(s: seq<real>): real
    requires |s| > 0
  {
    if |s| == 1 then s[0]
    else
      var m := Min(s[..|s| - 1]);
      if s[|s| - 1] < m then s[|s| - 1] else m
  }

  function Max(s: seq<real>): real
    requires |s| > 0
  {
    if |s| == 1 then s[0]
    else
      var m := Max(s[..|s| - 1]);
      if s[|s| - 1] > m then s[|s| - 1] else m
  }

  lemma {:induction false} MinIsLowerBound(s: seq<real>)
    requires |s| > 0
    ensures forall j :: 0 <= j < |s| ==> Min(s) <= s[j]
  {
    if |s| > 1 {
      MinIsLowerBound(s[..|s| - 1]);
      assert forall j :: 0 <= j < |s| - 1 ==> s[j] == s[..|s| - 1][j];
    }
  }

  lemma {:induction false} MaxIsUpperBound(s: seq<real>)
    requires |s| > 0
    ensures forall j :: 0 <= j < |s| ==> s[j] <= Max(s)
  {
    if |s| > 1 {
      MaxIsUpperBound(s[..|s| - 1]);
      assert forall j :: 0 <= j < |s| - 1 ==> s[j] == s[..|s| - 1][j];
    }
  }

  lemma {:induction false} SumAtLeast(s: seq<real>, lo: real)
    requires forall j :: 0 <= j < |s| ==> lo <= s[j]
    ensures (|s| as real) * lo <= Sum(s)
  {
    if |s| > 0 {
      var init := s[..|s| - 1];
      assert forall j :: 0 <= j < |init| ==> init[j] == s[j];
      SumAtLeast(init, lo);
      assert (|s| as real) * lo == (|init| as real) * lo + lo;
    }
  }

  lemma {:induction false} SumAtMost(s: seq<real>, hi: real)
    requires forall j :: 0 <= j < |s| ==> s[j] <= hi
    ensures Sum(s) <= (|s| as real) * hi
  {
    if |s| > 0 {
      var init := s[..|s| - 1];
      assert forall j :: 0 <= j < |init| ==> init[j] == s[j];
      SumAtMost(init, hi);
      assert (|s| as real) * hi == (|init| as real) * hi + hi;
    }
  }

  lemma DivideBounds(a: real, b: real, n: real)
    requires n > 0.0
    ensures a * n <= b ==> a <= b / n
    ensures b <= a * n ==> b / n <= a
  {
    assert (b / n) * n == b;
  }

  /** The mean of a window lies between the window's minimum and maximum. */
  lemma MeanBetweenMinAndMax(s: seq<real>)
    requires |s| > 0
    ensures Min(s) <= Mean(s) <= Max(s)
  {
    MinIsLowerBound(s);
    MaxIsUpperBound(s);
    SumAtLeast(s, Min(s));
    SumAtMost(s, Max(s));
    DivideBounds(Min(s), Sum(s), |s| as real);
    DivideBounds(Max(s), Sum(s), |s| as real);
  }

  predicate NonNegative(s: seq<real>)
  {
    forall j :: 0 <= j < |s| ==> s[j] >= 0.0
  }

  /** A sum of non-negative terms is non-negative, and positive exactly when
      some term is. */
  lemma {:induction false} SumOfNonNegative(s: seq<real>)
    requires NonNegative(s)
    ensures Sum(s) >= 0.0
    ensures Sum(s) > 0.0 <==> exists j :: 0 <= j < |s| && s[j] > 0.0
  {
    if |s| > 0 {
      var init := s[..|s| - 1];
      assert NonNegative(init);
      SumOfNonNegative(init);
      if Sum(s) > 0.0 {
        if Sum(init) > 0.0 {
          var k :| 0 <= k < |init| && init[k] > 0.0;
          assert s[k] > 0.0;
        } else {
          assert s[|s| - 1] > 0.0;
        }
      } else {
        forall j | 0 <= j < |s| ensures s[j] <= 0.0 {
          if j < |s| - 1 { assert s[j] == init[j]; }
        }
      }
    }
  }

  // ---------------------------------------------------------------------
  // Rolling means (min_periods equal to the window, as pandas defaults)
  // ---------------------------------------------------------------------

  predicate AllPresent(s: seq<Option<real>>)
  {
    forall j :: 0 <= j < |s| ==> s[j].Some?
  }

  function Values(s: seq<Option<real>>): (v: seq<real>)
    requires AllPresent(s)
    ensures |v| == |s|
  {
    seq(|s|, j requires 0 <= j < |s| => s[j].value)
  }

  /** `xs.rolling(window).mean()` at index i: NaN until `window` values exist
      and whenever a value in the window is NaN. */
  function RollingMeanAt(xs: seq<Option<real>>, window: nat, i: nat): Option<real>
    requires 1 <= window && i < |xs|
  {
    if i + 1 < window then None
    else
      var w := xs[i + 1 - window .. i + 1];
      if AllPresent(w) then Some(Mean(Values(w))) else None
  }

  function RollingMean(xs: seq<Option<real>>, window: nat): (r: seq<Option<real>>)
    requires 1 <= window
    ensures |r| == |xs|
  {
    seq(|xs|, i requires 0 <= i < |xs| => RollingMeanAt(xs, window, i))
  }

  /** calculate_sma: one value per bar, NaN over the first length - 1 bars. */
  function Sma(closes: seq<Option<real>>, length: nat): (r: seq<Option<real>>)
    requires 1 <= length
    ensures |r| == |closes|
    ensures forall i :: 0 <= i < |r| && i + 1 < length ==> r[i].None?
  {
    RollingMean(closes, length)
  }

  /** SMA at index i is defined exactly when i >= length - 1 and the window's
      closes are all present; it then lies between the window's minimum and
      maximum close. */
  lemma SmaWithinWindow(closes: seq<Option<real>>, length: nat, i: nat)
    requires 1 <= length && i < |closes|
    ensures Sma(closes, length)[i].Some? <==>
              length <= i + 1 && forall j :: i + 1 - length <= j <= i ==> closes[j].Some?
    ensures Sma(closes, length)[i].Some? ==>
              var w := Values(closes[i + 1 - length .. i + 1]);
              Min(w) <= Sma(closes, length)[i].value <= Max(w)
  {
    if length <= i + 1 {
      var w := closes[i + 1 - length .. i + 1];
      assert AllPresent(w) <==> forall j :: i + 1 - length <= j <= i ==> closes[j].Some? by {
        if AllPresent(w) {
          forall j | i + 1 - length <= j <= i ensures closes[j].Some? {
            assert closes[j] == w[j - (i + 1 - length)];
          }
        }
      }
      if AllPresent(w) {
        MeanBetweenMinAndMax(Values(w));
      }
    }
  }

  /** Causality: the rolling mean at i reads only xs[..i+1]. */
  lemma RollingMeanCausal(xs: seq<Option<real>>, window: nat, k: nat, i: nat)
    requires 1 <= window && i < k <= |xs|
    ensures RollingMean(xs[..k], window)[i] == RollingMean(xs, window)[i]
  {
    if window <= i + 1 {
      assert xs[..k][i + 1 - window .. i + 1] == xs[i + 1 - window .. i + 1];
    }
  }

  // ---------------------------------------------------------------------
  // RSI
  // ---------------------------------------------------------------------

  /** `data.diff()`: NaN at index 0 and wherever either close is NaN. */
  function Diff(xs: seq<Option<real>>): (d: seq<Option<real>>)
    ensures |d| == |xs|
  {
    seq(|xs|, i requires 0 <= i < |xs| =>
      if 0 < i && xs[i].Some? && xs[i - 1].Some? then Some(xs[i].value - xs[i - 1].value) else None)
  }

  /** `delta.where(delta > 0, 0)`: NaN and non-positive changes become 0. */
  function Gains(d: seq<Option<real>>): (g: seq<Option<real>>)
    ensures |g| == |d|
  {
    seq(|d|, i requires 0 <= i < |d| => if Gt(d[i], Some(0.0)) then d[i] else Some(0.0))
  }

  /** `-delta.where(delta < 0, 0)`: the size of each fall; NaN and
      non-negative changes become 0. */
  function Losses(d: seq<Option<real>>): (l: seq<Option<real>>)
    ensures |l| == |d|
  {
    seq(|d|, i requires 0 <= i < |d| => if Lt(d[i], Some(0.0)) then Some(-d[i].value) else Some(0.0))
  }

  /** `100 - 100 / (1 + gain / loss)` under IEEE division: a zero loss makes the
      ratio infinite and the RSI 100, unless the gain is zero too (0/0 is NaN). */
  function RsiFromAverages(gain: real, loss: real): (r: Option<real>)
    requires gain >= 0.0 && loss >= 0.0
    ensures r.Some? <==> gain > 0.0 || loss > 0.0
    ensures r.Some? ==> 0.0 <= r.value <= 100.0 && (r.value == 100.0 <==> loss == 0.0)
  {
    if loss > 0.0 then GainShare(gain, loss); Some(100.0 - 100.0 / (1.0 + gain / loss))
    else if gain > 0.0 then Some(100.0)
    else None
  }

  /** The close rose / fell from bar j - 1 to bar j. */
  predicate RisesAt(xs: seq<Option<real>>, j: int)
  {
    0 < j < |xs| && Gt(xs[j], xs[j - 1])
  }

  predicate FallsAt(xs: seq<Option<real>>, j: int)
  {
    0 < j < |xs| && Lt(xs[j], xs[j - 1])
  }

  /** A mean of non-negative terms is non-negative, and positive exactly when
      some term is. */
  lemma MeanOfNonNegative(s: seq<real>)
    requires |s| > 0 && NonNegative(s)
    ensures Mean(s) >= 0.0
    ensures Mean(s) > 0.0 <==> exists j :: 0 <= j < |s| && s[j] > 0.0
  {
    SumOfNonNegative(s);
    var n := |s| as real;
    if Sum(s) > 0.0 {
      assert Sum(s) / n > 0.0;
    } else {
      assert Sum(s) == 0.0;
    }
  }

  /** Each gain is present, never negative, and positive exactly on a rise. */
  lemma GainAt(closes: seq<Option<real>>, j: nat)
    requires j < |closes|
    ensures var g := Gains(Diff(closes))[j];
            g.Some? && g.value >= 0.0 && (g.value > 0.0 <==> RisesAt(closes, j))
  {
  }

  /** Each loss is present, never negative, and positive exactly on a fall. */
  lemma LossAt(closes: seq<Option<real>>, j: nat)
    requires j < |closes|
    ensures var l := Losses(Diff(closes))[j];
            l.Some? && l.value >= 0.0 && (l.value > 0.0 <==> FallsAt(closes, j))
  {
  }

  /** The gain average is defined from index length - 1 on (the first,
      missing change counts as 0), is never negative, and is positive exactly
      when the window holds a rise. */
  lemma GainAverage(closes: seq<Option<real>>, length: nat, i: nat)
    requires 1 <= length && i < |closes|
    ensures var g := RollingMeanAt(Gains(Diff(closes)), length, i);
            && (g.Some? <==> length <= i + 1)
            && (g.Some? ==> g.value >= 0.0)
            && (g.Some? ==> (g.value > 0.0 <==> exists j :: i + 1 - length <= j <= i && RisesAt(closes, j)))
  {
    if length <= i + 1 {
      var lo := i + 1 - length;
      var w := Gains(Diff(closes))[lo .. i + 1];
      forall t | 0 <= t < |w| ensures w[t].Some? && w[t].value >= 0.0 && (w[t].value > 0.0 <==> RisesAt(closes, lo + t)) {
        GainAt(closes, lo + t);
      }
      var v := Values(w);
      MeanOfNonNegative(v);
      if exists j :: lo <= j <= i && RisesAt(closes, j) {
        var j :| lo <= j <= i && RisesAt(closes, j);
        assert v[j - lo] > 0.0;
      }
    }
  }

  /** The loss average is defined from index length - 1 on, is never
      negative, and is positive exactly when the window holds a fall. */
  lemma LossAverage(closes: seq<Option<real>>, length: nat, i: nat)
    requires 1 <= length && i < |closes|
    ensures var l := RollingMeanAt(Losses(Diff(closes)), length, i);
            && (l.Some? <==> length <= i + 1)
            && (l.Some? ==> l.value >= 0.0)
            && (l.Some? ==> (l.value > 0.0 <==> exists j :: i + 1 - length <= j <= i && FallsAt(closes, j)))
  {
    if length <= i + 1 {
      var lo := i + 1 - length;
      var w := Losses(Diff(closes))[lo .. i + 1];
      forall t | 0 <= t < |w| ensures w[t].Some? && w[t].value >= 0.0 && (w[t].value > 0.0 <==> FallsAt(closes, lo + t)) {
        LossAt(closes, lo + t);
      }
      var v := Values(w);
      MeanOfNonNegative(v);
      if exists j :: lo <= j <= i && FallsAt(closes, j) {
        var j :| lo <= j <= i && FallsAt(closes, j);
        assert v[j - lo] > 0.0;
      }
    }
  }

  /** `calculate_rsi` at index i. */
  function RsiAt(closes: seq<Option<real>>, length: nat, i: nat): Option<real>
    requires 1 <= length && i < |closes|
  {
    var g := RollingMeanAt(Gains(Diff(closes)), length, i);
    var l := RollingMeanAt(Losses(Diff(closes)), length, i);
    GainAverage(closes, length, i);
    LossAverage(closes, length, i);
    if g.Some? && l.Some? then RsiFromAverages(g.value, l.value) else None
  }

  /** calculate_rsi: one value per bar, NaN over the first length - 1 bars,
      and always within [0, 100]. */
  function Rsi(closes: seq<Option<real>>, length: nat): (r: seq<Option<real>>)
    requires 1 <= length
    ensures |r| == |closes|
    ensures forall i :: 0 <= i < |r| && i + 1 < length ==> r[i].None?
    ensures forall i :: 0 <= i < |r| && r[i].Some? ==> 0.0 <= r[i].value <= 100.0
  {
    seq(|closes|, i requires 0 <= i < |closes| => RsiAt(closes, length, i))
  }

  /** RSI at index i is defined exactly when i >= length - 1 and the window
      holds at least one rise or fall (a flat window gives 0/0). */
  lemma RsiDefined(closes: seq<Option<real>>, length: nat, i: nat)
    requires 1 <= length && i < |closes|
    ensures Rsi(closes, length)[i].Some? <==>
              length <= i + 1 &&
              exists j :: i + 1 - length <= j <= i && (RisesAt(closes, j) || FallsAt(closes, j))
  {
    var d := Diff(closes);
    GainAverage(closes, length, i);
    LossAverage(closes, length, i);
    assert Rsi(closes, length)[i] == RsiAt(closes, length, i);
  }

  /** A defined RSI is the gain's share 100 * gain / (gain + loss) of the
      window's averages; it lies in [0, 100] and is 100 exactly when the
      window holds no fall (the zero-loss saturation). */
  lemma RsiRange(closes: seq<Option<real>>, length: nat, i: nat)
    requires 1 <= length && i < |closes|
    requires Rsi(closes, length)[i].Some?
    ensures var v := Rsi(closes, length)[i].value;
            && 0.0 <= v <= 100.0
            && (v == 100.0 <==> forall j :: i + 1 - length <= j <= i ==> !FallsAt(closes, j))
    ensures var g := RollingMeanAt(Gains(Diff(closes)), length, i).value;
            var l := RollingMeanAt(Losses(Diff(closes)), length, i).value;
            g + l > 0.0 && Rsi(closes, length)[i].value == 100.0 * g / (g + l)
  {
    var d := Diff(closes);
    GainAverage(closes, length, i);
    LossAverage(closes, length, i);
    assert Rsi(closes, length)[i] == RsiAt(closes, length, i);
    var g := RollingMeanAt(Gains(d), length, i).value;
    var l := RollingMeanAt(Losses(d), length, i).value;
    assert RsiAt(closes, length, i) == RsiFromAverages(g, l);
    if l > 0.0 {
      GainShare(g, l);
    }
  }

  lemma GainShare(g: real, l: real)
    requires g >= 0.0 && l > 0.0
    ensures 100.0 - 100.0 / (1.0 + g / l) == 100.0 * g / (g + l)
    ensures 0.0 <= 100.0 * g / (g + l) < 100.0
  {
    var t := 1.0 + g / l;
    assert t * l == l + g;
    assert 100.0 / t == 100.0 * l / (g + l) by {
      assert (100.0 / t) * (g + l) == (100.0 / t) * (t * l);
    }
    assert 100.0 * l / (g + l) + 100.0 * g / (g + l) == 100.0;
    assert 100.0 * g / (g + l) < 100.0 by {
      DivideBounds(100.0, 100.0 * g, g + l);
    }
  }

  /** Causality: RSI at index i reads only closes[..i+1]. */
  lemma RsiCausal(closes: seq<Option<real>>, length: nat, k: nat, i: nat)
    requires 1 <= length && i < k <= |closes|
    ensures Rsi(closes[..k], length)[i] == Rsi(closes, length)[i]
  {
    var d, dk := Diff(closes), Diff(closes[..k]);
    assert dk == d[..k];
    assert Gains(dk) == Gains(d)[..k];
    assert Losses(dk) == Losses(d)[..k];
    RollingMeanCausal(Gains(d), length, k, i);
    RollingMeanCausal(Losses(d), length, k, i);
  }

  // ---------------------------------------------------------------------
  // calculate_indicators
  // ---------------------------------------------------------------------

  /** The columns calculate_indicators adds. Bollinger %b needs a rolling
      standard deviation and is not computed here: each bar's `percentB` is
      taken as given and only exposed as the %b column. */
  const IndicatorColumns: set<Column> := {Sma5, Sma200, Rsi2, Rsi4, PercentB}

  /** The frame as calculate_indicators leaves it: unchanged without a Close
      column or rows, otherwise with exactly the five indicator columns added. */
  function WithIndicators(f: Frame): (r: Frame)
    ensures Close !in f.columns || |f.rows| == 0 ==> r == f
    ensures Close in f.columns && |f.rows| > 0 ==> r.columns == f.columns + IndicatorColumns
    ensures |r.rows| == |f.rows|
  {
    if Close !in f.columns || |f.rows| == 0 then f
    else
      var closes := ColumnValues(f.rows, Close);
      var f1 := WithColumn(f, Sma5, Sma(closes, 5));
      var f2 := WithColumn(f1, Sma200, Sma(closes, 200));
      var f3 := WithColumn(f2, Rsi2, Rsi(closes, 2));
      var f4 := WithColumn(f3, Rsi4, Rsi(closes, 4));
      WithColumn(f4, PercentB, ColumnValues(f.rows, PercentB))
  }

  /** Row i after calculate_indicators: SMA_5, SMA_200, RSI_2 and RSI_4 of the
      Close column at i, every other cell (date, prices, %b) unchanged. */
  lemma IndicatorRow(f: Frame, i: nat)
    requires Close in f.columns && i < |f.rows|
    ensures var c := ColumnValues(f.rows, Close);
            WithIndicators(f).rows[i] ==
              f.rows[i].(sma5 := Sma(c, 5)[i], sma200 := Sma(c, 200)[i],
                         rsi2 := Rsi(c, 2)[i], rsi4 := Rsi(c, 4)[i])
  {
  }

  /** Causality of the whole pipeline: computing the indicators over the first
      n bars gives the first n bars of the indicators over the full series, so
      slicing after calculate_indicators sees no look-ahead. */
  lemma IndicatorsCausal(f: Frame, n: nat)
    requires 1 <= n <= |f.rows|
    ensures WithIndicators(Prefix(f, n)) == Prefix(WithIndicators(f), n)
  {
    if Close in f.columns {
      var p := Prefix(f, n);
      var a, b := WithIndicators(p), Prefix(WithIndicators(f), n);
      var c, cp := ColumnValues(f.rows, Close), ColumnValues(p.rows, Close);
      assert cp == c[..n];
      forall i | 0 <= i < n ensures a.rows[i] == b.rows[i] {
        IndicatorRow(p, i);
        IndicatorRow(f, i);
        RollingMeanCausal(c, 5, n, i);
        RollingMeanCausal(c, 200, n, i);
        RsiCausal(c, 2, n, i);
        RsiCausal(c, 4, n, i);
      }
      assert a.rows == b.rows;
    }
  }

  /** `calculate_indicators(data)`: updates the caller's DataFrame in place
      and returns that same object. */
  method CalculateIndicators(data: DataFrame) returns (r: DataFrame)
    modifies data
    ensures r == data
    ensures data.Value() == WithIndicators(old(data.Value()))
  {
    r := data;
    if Close !in data.columns || |data.rows| == 0 {
      return;
    }
    var closes := ColumnValues(data.rows, Close);
    var percentB := ColumnValues(data.rows, PercentB);
    data.AssignColumn(Sma5, Sma(closes, 5));
    data.AssignColumn(Sma200, Sma(closes, 200));
    data.AssignColumn(Rsi2, Rsi(closes, 2));
    data.AssignColumn(Rsi4, Rsi(closes, 4));
    data.AssignColumn(PercentB, percentB);
  }
}
