/** The indicator-augmented price series that every evaluator reads: a
    DataFrame whose rows are daily bars and whose column set says which
    indicator columns exist. */
module Frames {
  import opened Common

  /** The DataFrame columns the core reads. */
  datatype Column = Close | High | Low | Sma5 | Sma200 | Rsi2 | Rsi4 | PercentB

  /** One row, indexed by its date. A NaN cell is `None`. A field whose column
      is not in the frame's column set carries no meaning. */
  datatype Bar = Bar(
    date: string,
    close: Option<real>,
    high: Option<real>,
    low: Option<real>,
    sma5: Option<real>,
    sma200: Option<real>,
    rsi2: Option<real>,
    rsi4: Option<real>,
    percentB: Option<real>)

  datatype Frame = Frame(columns: set<Column>, rows: seq<Bar>)

  /** One entry of the ETF universe with the history the data manager returns. */
  datatype Listing = Listing(symbol: string, history: Frame)

  /** `bar[column]` */
  function Get(b: Bar, c: Column): Option<real>
  {
    match c
    case Close => b.close
    case High => b.high
    case Low => b.low
    case Sma5 => b.sma5
    case Sma200 => b.sma200
    case Rsi2 => b.rsi2
    case Rsi4 => b.rsi4
    case PercentB => b.percentB
  }

  /** `bar[column] = v` */
  function Set(b: Bar, c: Column, v: Option<real>): (r: Bar)
    ensures Get(r, c) == v
    ensures forall d :: d != c ==> Get(r, d) == Get(b, d)
    ensures r.date == b.date
  {
    match c
    case Close => b.(close := v)
    case High => b.(high := v)
    case Low => b.(low := v)
    case Sma5 => b.(sma5 := v)
    case Sma200 => b.(sma200 := v)
    case Rsi2 => b.(rsi2 := v)
    case Rsi4 => b.(rsi4 := v)
    case PercentB => b.(percentB := v)
  }

  /** `data.iloc[-1]` */
  function Latest(f: Frame): Bar
    requires |f.rows| >= 1
  {
    f.rows[|f.rows| - 1]
  }

  /** `data.iloc[-1 - k]` */
  function Back(f: Frame, k: nat): Bar
    requires k < |f.rows|
  {
    f.rows[|f.rows| - 1 - k]
  }

  /** `data.iloc[:n]` */
  function Prefix(f: Frame, n: nat): Frame
    requires n <= |f.rows|
  {
    Frame(f.columns, f.rows[..n])
  }

  /** `data[column].iloc[-n:]`, oldest first. */
  function Window(f: Frame, c: Column, n: nat): (w: seq<Option<real>>)
    requires n <= |f.rows|
    ensures |w| == n
    ensures forall j :: 0 <= j < n ==> w[j] == Get(Back(f, n - 1 - j), c)
  {
    seq(n, j requires 0 <= j < n => Get(f.rows[|f.rows| - n + j], c))
  }

  /** `data[column]` as a whole series. */
  function ColumnValues(rows: seq<Bar>, c: Column): (s: seq<Option<real>>)
    ensures |s| == |rows|
  {
    seq(|rows|, i requires 0 <= i < |rows| => Get(rows[i], c))
  }

  /** The shared trend filter: Close above / below SMA_200. */
  predicate Uptrend(b: Bar)
  {
    Gt(b.close, b.sma200)
  }

  predicate Downtrend(b: Bar)
  {
    Lt(b.close, b.sma200)
  }

  /** Every step of the window goes strictly down (NaN breaks the run). */
  predicate StrictlyFalling(w: seq<Option<real>>)
  {
    forall j :: 1 <= j < |w| ==> Lt(w[j], w[j - 1])
  }

  /** Every step of the window goes strictly up (NaN breaks the run). */
  predicate StrictlyRising(w: seq<Option<real>>)
  {
    forall j :: 1 <= j < |w| ==> Gt(w[j], w[j - 1])
  }

  /** A three-value window falls strictly exactly when both of its steps do. */
  lemma FallingThree(a: Option<real>, b: Option<real>, c: Option<real>)
    ensures StrictlyFalling([a, b, c]) <==> Lt(b, a) && Lt(c, b)
    ensures StrictlyRising([a, b, c]) <==> Gt(b, a) && Gt(c, b)
  {
    var w := [a, b, c];
    if Lt(b, a) && Lt(c, b) {
      forall j | 1 <= j < |w| ensures Lt(w[j], w[j - 1]) {
        if j == 1 { assert w[0] == a && w[1] == b; } else { assert w[1] == b && w[2] == c; }
      }
    }
    if Gt(b, a) && Gt(c, b) {
      forall j | 1 <= j < |w| ensures Gt(w[j], w[j - 1]) {
        if j == 1 { assert w[0] == a && w[1] == b; } else { assert w[1] == b && w[2] == c; }
      }
    }
    assert w[0] == a && w[1] == b && w[2] == c;
  }

  /** A four-value window falls strictly exactly when all three of its steps do. */
  lemma FallingFour(a: Option<real>, b: Option<real>, c: Option<real>, d: Option<real>)
    ensures StrictlyFalling([a, b, c, d]) <==> Lt(b, a) && Lt(c, b) && Lt(d, c)
    ensures StrictlyRising([a, b, c, d]) <==> Gt(b, a) && Gt(c, b) && Gt(d, c)
  {
    var w := [a, b, c, d];
    if Lt(b, a) && Lt(c, b) && Lt(d, c) {
      forall j | 1 <= j < |w| ensures Lt(w[j], w[j - 1]) {
        if j == 1 { assert w[0] == a && w[1] == b; }
        else if j == 2 { assert w[1] == b && w[2] == c; }
        else { assert w[2] == c && w[3] == d; }
      }
    }
    if Gt(b, a) && Gt(c, b) && Gt(d, c) {
      forall j | 1 <= j < |w| ensures Gt(w[j], w[j - 1]) {
        if j == 1 { assert w[0] == a && w[1] == b; }
        else if j == 2 { assert w[1] == b && w[2] == c; }
        else { assert w[2] == c && w[3] == d; }
      }
    }
    assert w[0] == a && w[1] == b && w[2] == c && w[3] == d;
  }

  /** The pandas DataFrame object itself, which `calculate_indicators`
      updates in place. */
  class DataFrame {
    var columns: set<Column>
    var rows: seq<Bar>

    constructor (f: Frame)
      ensures Value() == f
    {
      columns := f.columns;
      rows := f.rows;
    }

    function Value(): Frame
      reads this
    {
      Frame(columns, rows)
    }

    /** `data[c] = values`: adds the column and overwrites that cell of every row. */
    method AssignColumn(c: Column, values: seq<Option<real>>)
      requires |values| == |rows|
      modifies this
      ensures Value() == WithColumn(old(Value()), c, values)
    {
      var before := Value();
      columns := columns + {c};
      rows := WithColumn(before, c, values).rows;
    }
  }

  /** The frame after `data[c] = values`. */
  function WithColumn(f: Frame, c: Column, values: seq<Option<real>>): (r: Frame)
    requires |values| == |f.rows|
    ensures r.columns == f.columns + {c}
    ensures |r.rows| == |f.rows|
    ensures forall i :: 0 <= i < |f.rows| ==> r.rows[i] == Set(f.rows[i], c, values[i])
  {
    Frame(f.columns + {c}, seq(|f.rows|, i requires 0 <= i < |f.rows| => Set(f.rows[i], c, values[i])))
  }
}
