/** The result dictionaries the seven evaluators return, and the
    `signals.get(name)` lookup through which the backtest tracker and the daily
    scanner read them whatever the evaluator's vocabulary. */
module Signals {

  /** The `signal` value of the TPS evaluator. */
  datatype Action = Buy | SellShort | ExitLong | ExitShort | Hold

  /** TPS: keys signal, tranche_to_execute, status. */
  datatype TpsSignals = TpsSignals(signal: Action, trancheToExecute: int, status: string)

  /** r3, mdd_mdu and percent_b: keys long_entry, long_exit, short_entry,
      short_exit, status. */
  datatype EntryExit = EntryExit(longEntry: bool, longExit: bool, shortEntry: bool, shortExit: bool, status: string)

  /** rsi_10_6_90_94: initial and second-tier entries, exits, status. */
  datatype Tiered = Tiered(
    longInitialEntry: bool, longSecondEntry: bool, longExit: bool,
    shortInitialEntry: bool, shortSecondEntry: bool, shortExit: bool,
    status: string)

  /** rsi_25_75: entries, aggressive entries, exits, status. */
  datatype Aggressive = Aggressive(
    longEntry: bool, longAggressiveEntry: bool, longExit: bool,
    shortEntry: bool, shortAggressiveEntry: bool, shortExit: bool,
    status: string)

  /** three_day_hl: keys long_signal, short_signal, status. */
  datatype HighLow = HighLow(longSignal: bool, shortSignal: bool, status: string)

  datatype SignalResult =
    | FromTps(tps: TpsSignals)
    | FromEntryExit(entryExit: EntryExit)
    | FromTiered(tiered: Tiered)
    | FromAggressive(aggressive: Aggressive)
    | FromHighLow(highLow: HighLow)

  /** The boolean keys any evaluator may produce. */
  datatype Flag =
    | LongEntry | LongSignal | LongInitialEntry | LongSecondEntry | LongAggressiveEntry | LongExit
    | ShortEntry | ShortSignal | ShortInitialEntry | ShortSecondEntry | ShortAggressiveEntry | ShortExit

  /** The boolean keys of the dictionary whose value is True. */
  function Raised(r: SignalResult): set<Flag>
  {
    match r
    case FromTps(_) => {}
    case FromEntryExit(s) =>
      (if s.longEntry then {LongEntry} else {}) + (if s.longExit then {LongExit} else {}) +
      (if s.shortEntry then {ShortEntry} else {}) + (if s.shortExit then {ShortExit} else {})
    case FromTiered(s) =>
      (if s.longInitialEntry then {LongInitialEntry} else {}) + (if s.longSecondEntry then {LongSecondEntry} else {}) +
      (if s.longExit then {LongExit} else {}) +
      (if s.shortInitialEntry then {ShortInitialEntry} else {}) + (if s.shortSecondEntry then {ShortSecondEntry} else {}) +
      (if s.shortExit then {ShortExit} else {})
    case FromAggressive(s) =>
      (if s.longEntry then {LongEntry} else {}) + (if s.longAggressiveEntry then {LongAggressiveEntry} else {}) +
      (if s.longExit then {LongExit} else {}) +
      (if s.shortEntry then {ShortEntry} else {}) + (if s.shortAggressiveEntry then {ShortAggressiveEntry} else {}) +
      (if s.shortExit then {ShortExit} else {})
    case FromHighLow(s) =>
      (if s.longSignal then {LongSignal} else {}) + (if s.shortSignal then {ShortSignal} else {})
  }

  /** `signals.get(name)` read as a truth value: the flag when the dictionary
      has that key, otherwise None, which is falsy. The TPS dictionary has
      none of these keys. */
  function Get(r: SignalResult, f: Flag): (b: bool)
  {
    f in Raised(r)
  }

  /** Only the rsi_25_75 dictionary has the aggressive keys. */
  lemma AggressiveKeysOnlyInAggressive(r: SignalResult)
    ensures Get(r, LongAggressiveEntry) || Get(r, ShortAggressiveEntry) ==> r.FromAggressive?
  {
    match r
    case FromAggressive(_) =>
    case FromTps(_) =>
    case FromEntryExit(_) =>
      assert Raised(r) <= {LongEntry, LongExit, ShortEntry, ShortExit};
    case FromTiered(_) =>
      assert Raised(r) <= {LongInitialEntry, LongSecondEntry, LongExit, ShortInitialEntry, ShortSecondEntry, ShortExit};
    case FromHighLow(_) =>
      assert Raised(r) <= {LongSignal, ShortSignal};
  }

  /** `long_entry or long_signal or long_initial_entry` */
  predicate LongEntryFlag(r: SignalResult)
  {
    Get(r, LongEntry) || Get(r, LongSignal) || Get(r, LongInitialEntry)
  }

  /** `short_entry or short_signal or short_initial_entry` */
  predicate ShortEntryFlag(r: SignalResult)
  {
    Get(r, ShortEntry) || Get(r, ShortSignal) || Get(r, ShortInitialEntry)
  }

  /** `(side == 'long' and long_exit) or (side == 'short' and short_exit)` */
  predicate ExitFlag(r: SignalResult, side: string)
  {
    (side == "long" && Get(r, LongExit)) || (side == "short" && Get(r, ShortExit))
  }

  /** `(side == 'long' and long_aggressive_entry) or (side == 'short' and short_aggressive_entry)` */
  predicate AggressiveFlag(r: SignalResult, side: string)
  {
    (side == "long" && Get(r, LongAggressiveEntry)) || (side == "short" && Get(r, ShortAggressiveEntry))
  }

  const NoSignal := "No signal"
  const InsufficientStatus := "Insufficient data or missing columns"
  const LongExitStatus := "Long exit signal detected"
  const ShortExitStatus := "Short exit signal detected"

  /** The status that the sequence of overwrites in r3, mdd_mdu and percent_b
      leaves: a short entry message beats everything, a long entry message
      beats the exits, and an exit message is written only over "No signal". */
  function EntryExitStatus(r: EntryExit, longEntryMessage: string, shortEntryMessage: string): string
  {
    if r.shortEntry then shortEntryMessage
    else if r.longEntry then longEntryMessage
    else if r.longExit then LongExitStatus
    else if r.shortExit then ShortExitStatus
    else NoSignal
  }
}
