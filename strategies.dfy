/** The strategy registry shared by the backtest and the scanner: the seven
    names in registry order, the `symbol_strategy` portfolio key, and the
    dispatch to each evaluator. */
module Strategies {
  import opened Common
  import Frames
  import opened Signals
  import TpsStrategy
  import ThreeDayHLStrategy
  import Rsi25_75Strategy
  import R3Strategy
  import PercentBStrategy
  import MddMduStrategy
  import Rsi10_6_90_94Strategy

  datatype Strategy = ThreeDayHighLow | Rsi25_75 | R3 | PercentB | MddMdu | Rsi10_6_90_94 | Tps

  /** The registry key of each strategy. */
  function Name(s: Strategy): string
  {
    match s
    case ThreeDayHighLow => "3_day_hl"
    case Rsi25_75 => "rsi_25_75"
    case R3 => "r3"
    case PercentB => "percent_b"
    case MddMdu => "mdd_mdu"
    case Rsi10_6_90_94 => "rsi_10_6_90_94"
    case Tps => "tps"
  }

  /** The registry in its iteration order. */
  const AllStrategies: seq<Strategy> := [ThreeDayHighLow, Rsi25_75, R3, PercentB, MddMdu, Rsi10_6_90_94, Tps]

  lemma AllStrategiesListsEachOnce()
    ensures forall s: Strategy :: s in AllStrategies
    ensures forall i, j :: 0 <= i < j < |AllStrategies| ==> AllStrategies[i] != AllStrategies[j]
  {
    forall s: Strategy ensures s in AllStrategies {
      var i := match s
        case ThreeDayHighLow => 0
        case Rsi25_75 => 1
        case R3 => 2
        case PercentB => 3
        case MddMdu => 4
        case Rsi10_6_90_94 => 5
        case Tps => 6;
      assert AllStrategies[i] == s;
    }
  }

  /** `f"{symbol}_{strategy_name}"` */
  function Key(symbol: string, s: Strategy): string
  {
    symbol + ("_" + Name(s))
  }

  /** A key is the symbol, an underscore and the strategy's name, in that order. */
  lemma KeyParts(symbol: string, s: Strategy)
    ensures |Key(symbol, s)| == |symbol| + 1 + |Name(s)|
    ensures Key(symbol, s)[..|symbol|] == symbol && Key(symbol, s)[|symbol|..] == "_" + Name(s)
  {
    var k := Key(symbol, s);
    assert k[..|symbol|] == symbol;
  }

  /** The last character of each registry name. */
  function LastChar(s: Strategy): char
  {
    match s
    case ThreeDayHighLow => 'l'
    case Rsi25_75 => '5'
    case R3 => '3'
    case PercentB => 'b'
    case MddMdu => 'u'
    case Rsi10_6_90_94 => '4'
    case Tps => 's'
  }

  lemma NameEndsInLastChar(s: Strategy)
    ensures |Name(s)| >= 2 && Name(s)[|Name(s)| - 1] == LastChar(s)
  {
  }

  /** No two registry names end in the same character. */
  lemma LastCharInjective(s: Strategy, t: Strategy)
    requires LastChar(s) == LastChar(t)
    ensures s == t
  {
  }

  /** If `"_" + a` is a tail of `"_" + b`, then `a` and `b` end alike. */
  lemma UnderscoreTailEndsAlike(a: string, b: string)
    requires 1 <= |a| <= |b| && ("_" + b)[|b| - |a|..] == "_" + a
    ensures a[|a| - 1] == b[|b| - 1]
  {
    var x, y := "_" + a, "_" + b;
    assert y[|b| - |a|..][|a|] == y[|b|];
  }

  /** No registry name, preceded by an underscore, is a tail of another one:
      the seven names already differ in their last character. */
  lemma NoNameIsUnderscoreTail(s: Strategy, t: Strategy)
    requires |Name(s)| <= |Name(t)|
    requires ("_" + Name(t))[|Name(t)| - |Name(s)|..] == "_" + Name(s)
    ensures s == t
  {
    NameEndsInLastChar(s);
    NameEndsInLastChar(t);
    UnderscoreTailEndsAlike(Name(s), Name(t));
    LastCharInjective(s, t);
  }

  /** When two concatenations are equal, the shorter right part is a tail
      of the longer one. */
  lemma ShorterTailOfEqualConcat(a: string, x: string, b: string, y: string)
    requires a + x == b + y && |x| <= |y|
    ensures y[|y| - |x|..] == x
  {
    var k := a + x;
    assert k[|b|..] == y;
    assert k[|k| - |x|..] == x;
    assert k[|k| - |x|..] == y[|y| - |x|..];
  }

  /** Distinct (symbol, strategy) pairs never share a portfolio key, whatever
      the symbols contain. */
  lemma KeyInjective(a: string, s: Strategy, b: string, t: Strategy)
    requires Key(a, s) == Key(b, t)
    ensures a == b && s == t
  {
    KeyParts(a, s);
    KeyParts(b, t);
    var x, y := "_" + Name(s), "_" + Name(t);
    if |x| <= |y| {
      ShorterTailOfEqualConcat(a, x, b, y);
      NoNameIsUnderscoreTail(s, t);
    } else {
      ShorterTailOfEqualConcat(b, y, a, x);
      NoNameIsUnderscoreTail(t, s);
    }
  }

  /** Calls the evaluator registered under `s`; only TPS reads the position
      snapshot. Only three_day_hl and TPS can raise. */
  function Evaluate(s: Strategy, data: Frames.Frame, pos: TpsStrategy.PositionState): (r: Outcome<SignalResult>)
    ensures r.KeyError? ==> s == ThreeDayHighLow || s == Tps
    ensures r.Ok? ==> (s == Tps <==> r.value.FromTps?)
    ensures r.Ok? ==> (s == ThreeDayHighLow <==> r.value.FromHighLow?)
    ensures r.Ok? ==> (s == Rsi25_75 <==> r.value.FromAggressive?)
    ensures r.Ok? ==> (s == Rsi10_6_90_94 <==> r.value.FromTiered?)
    ensures r.Ok? ==> (s == R3 || s == PercentB || s == MddMdu <==> r.value.FromEntryExit?)
  {
    match s
    case ThreeDayHighLow =>
      (match ThreeDayHLStrategy.CheckThreeDayHL(data)
       case Ok(v) => Ok(FromHighLow(v))
       case KeyError(k) => KeyError(k))
    case Rsi25_75 => Ok(FromAggressive(Rsi25_75Strategy.CheckRsi25_75(data)))
    case R3 => Ok(FromEntryExit(R3Strategy.CheckR3(data)))
    case PercentB => Ok(FromEntryExit(PercentBStrategy.CheckPercentB(data)))
    case MddMdu => Ok(FromEntryExit(MddMduStrategy.CheckMddMdu(data)))
    case Rsi10_6_90_94 => Ok(FromTiered(Rsi10_6_90_94Strategy.CheckRsi10_6_90_94(data)))
    case Tps =>
      (match TpsStrategy.CheckTps(data, pos)
       case Ok(v) => Ok(FromTps(v))
       case KeyError(k) => KeyError(k))
  }

  /** Only rsi_25_75 raises the aggressive (scale-in) flags. */
  lemma OnlyRsi25_75ScalesIn(s: Strategy, data: Frames.Frame, pos: TpsStrategy.PositionState)
    requires Evaluate(s, data, pos).Ok?
    requires var r := Evaluate(s, data, pos).value;
             Get(r, LongAggressiveEntry) || Get(r, ShortAggressiveEntry)
    ensures s == Rsi25_75
  {
    AggressiveKeysOnlyInAggressive(Evaluate(s, data, pos).value);
  }

  /** The TPS dictionary has none of the keys the flags read. */
  lemma TpsDictionaryHasNoFlags(r: SignalResult, side: string)
    requires r.FromTps?
    ensures !LongEntryFlag(r) && !ShortEntryFlag(r) && !ExitFlag(r, side) && !AggressiveFlag(r, side)
  {
  }

  /** A TPS result carries none of the flags the consumers look up. */
  lemma TpsHasNoFlags(data: Frames.Frame, pos: TpsStrategy.PositionState, side: string)
    requires Evaluate(Tps, data, pos).Ok?
    ensures var r := Evaluate(Tps, data, pos).value;
            !LongEntryFlag(r) && !ShortEntryFlag(r) && !ExitFlag(r, side) && !AggressiveFlag(r, side)
  {
    TpsDictionaryHasNoFlags(Evaluate(Tps, data, pos).value, side);
  }

  /** What `STRATEGY_MAP[name]["func"]` holds: an evaluator from the data
      slice and the position record to its signal dictionary. */
  type Evaluator = (Strategy, Frames.Frame, TpsStrategy.PositionState) -> Outcome<SignalResult>

  /** The evaluator registered under TPS answers with TPS's own dictionary. */
  ghost predicate AnswersTpsWithTps(eval: Evaluator)
  {
    forall data, pos :: eval(Tps, data, pos).Ok? ==> eval(Tps, data, pos).value.FromTps?
  }

  lemma RegistryAnswersTpsWithTps()
    ensures AnswersTpsWithTps(Evaluate)
  {
    forall data, pos | Evaluate(Tps, data, pos).Ok?
      ensures Evaluate(Tps, data, pos).value.FromTps?
    {
      TpsHasNoFlags(data, pos, "");
    }
  }
}
