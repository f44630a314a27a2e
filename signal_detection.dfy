/**
 * The signal detector object: a per-symbol 60-minute analysis cooldown kept in
 * `signal_history`, the detection pipeline over one symbol's data, the sweep over all
 * symbols, and the summary of what was found.
 */
module SignalDetection {
  import opened Wrappers
  import opened Config
  import opened Indicators
  import opened Signals

  const SIGNAL_COOLDOWN_MINUTES: int := 60
  /** Candles needed before any analysis is attempted. */
  const MIN_CANDLES: int := 100

  /**
   * What the database and the indicator computation deliver for a symbol: its candles
   * (oldest first) and the indicator series, `None` when that computation failed.
   */
  datatype MarketData = MarketData(candles: seq<Candle>, series: Option<Series>)

  function AnalysisKey(symbol: string): string
  {
    symbol + "_ANALYSIS"
  }

  /** Less than the cooldown has passed since the symbol was last analysed with a result. */
  predicate Cooling(history: map<string, int>, key: string, now: int)
  {
    key in history && (now - history[key]) as real / 60.0 < SIGNAL_COOLDOWN_MINUTES as real
  }

  /** Every detector's output, in the order the source runs them. */
  function RawSignals(symbol: string, candles: seq<Candle>, ts: Series): seq<Signal>
    requires |candles| > 0
  {
    var price := candles[|candles| - 1].close;
    MaCrossover(symbol, ts.ma20, ts.ma50)
    + MacdCrossover(symbol, ts.macd, ts.macdSignal)
    + RsiReversal(symbol, ts.rsi)
    + BollingerBreakout(symbol, ts.bbUpper, ts.bbMiddle, ts.bbLower, price)
    + VolumeSurge(symbol, candles)
    + CciReversal(symbol, ts.cci)
    + Consensus(symbol, CurrentOf(ts))
  }

  datatype Detection = Detection(signals: seq<Signal>, history: map<string, int>)

  /**
   * `detect_signals_for_symbol`: nothing while the symbol cools down or its data is
   * short; otherwise the cooldown is stamped whenever any detector fired, and the three
   * strongest reportable signals are returned.
   */
  function DetectSpec(history: map<string, int>, symbol: string, data: MarketData, now: int): (res: Detection)
    ensures |res.signals| <= 3
    ensures Cooling(history, AnalysisKey(NormalizeSymbol(symbol)), now) ==> res == Detection([], history)
    ensures res.history == history || res.history == history[AnalysisKey(NormalizeSymbol(symbol)) := now]
    ensures res.signals != [] ==> res.history == history[AnalysisKey(NormalizeSymbol(symbol)) := now]
    ensures |data.candles| < MIN_CANDLES || data.series.None? ==> res == Detection([], history)
    ensures (!Cooling(history, AnalysisKey(NormalizeSymbol(symbol)), now) && |data.candles| >= MIN_CANDLES
             && data.series.Some?) ==> (
      var raw := RawSignals(NormalizeSymbol(symbol), data.candles, data.series.value);
      res.signals == TopThree(raw)
      && (res.history == history[AnalysisKey(NormalizeSymbol(symbol)) := now] <==> raw != []))
  {
    var sym := NormalizeSymbol(symbol);
    var key := AnalysisKey(sym);
    if Cooling(history, key, now) then Detection([], history)
    else if |data.candles| < MIN_CANDLES || data.series.None? then Detection([], history)
    else
      var raw := RawSignals(sym, data.candles, data.series.value);
      StampChanges(history, key, now);
      if raw == [] then Detection([], history)
      else Detection(TopThree(raw), history[key := now])
  }

  /** Outside the cooldown, stamping the key always changes the history. */
  lemma StampChanges(history: map<string, int>, key: string, now: int)
    requires !Cooling(history, key, now)
    ensures history[key := now] != history
  {
    assert history[key := now][key] == now;
  }

  /** What a detection returns is among the raw signals, reportable, and strongest first. */
  lemma DetectedAreRanked(history: map<string, int>, symbol: string, data: MarketData, now: int)
    requires data.series.Some? && |data.candles| >= MIN_CANDLES
    ensures var res := DetectSpec(history, symbol, data, now);
      var raw := RawSignals(NormalizeSymbol(symbol), data.candles, data.series.value);
      (forall i :: 0 <= i < |res.signals| ==> res.signals[i] in raw && Reportable(res.signals[i]))
      && (forall i, j :: 0 <= i < j < |res.signals| ==>
            StrengthScore(res.signals[i].strength) >= StrengthScore(res.signals[j].strength))
  {
    TopThreeFacts(RawSignals(NormalizeSymbol(symbol), data.candles, data.series.value));
  }

  // ---------------------------------------------------------------- summary

  /** The signals of a result dictionary, flattened in item order. */
  function Flatten(items: seq<(string, seq<Signal>)>): seq<Signal>
  {
    if items == [] then [] else Flatten(items[..|items| - 1]) + items[|items| - 1].1
  }

  function HighPriorityCount(sigs: seq<Signal>): (n: nat)
    ensures n <= |sigs|
  {
    if sigs == [] then 0
    else HighPriorityCount(sigs[..|sigs| - 1]) + (if sigs[|sigs| - 1].priority >= 3 then 1 else 0)
  }

  function VeryHighCount(sigs: seq<Signal>): (n: nat)
    ensures n <= |sigs|
  {
    if sigs == [] then 0
    else VeryHighCount(sigs[..|sigs| - 1]) + (if sigs[|sigs| - 1].strength == VERY_HIGH then 1 else 0)
  }

  function KindCount(sigs: seq<Signal>, kind: string): (n: nat)
    ensures n <= |sigs|
  {
    if sigs == [] then 0
    else KindCount(sigs[..|sigs| - 1], kind) + (if sigs[|sigs| - 1].kind == kind then 1 else 0)
  }

  /** Counting one more signal into the per-type tally. */
  function Tally(counts: map<string, nat>, kind: string): map<string, nat>
  {
    counts[kind := (if kind in counts then counts[kind] else 0) + 1]
  }

  function TypeCounts(sigs: seq<Signal>): map<string, nat>
  {
    if sigs == [] then map[] else Tally(TypeCounts(sigs[..|sigs| - 1]), sigs[|sigs| - 1].kind)
  }

  /** The per-type tally counts every type that occurs, and only those. */
  lemma {:induction false} TypeCountsAreCounts(sigs: seq<Signal>, kind: string)
    ensures kind in TypeCounts(sigs) <==> KindCount(sigs, kind) > 0
    ensures kind in TypeCounts(sigs) ==> TypeCounts(sigs)[kind] == KindCount(sigs, kind)
  {
    if sigs != [] {
      TypeCountsAreCounts(sigs[..|sigs| - 1], kind);
    }
  }

  datatype SignalSummary = SignalSummary(
    totalSignals: nat,
    symbolsWithSignals: nat,
    signalTypes: map<string, nat>,
    highPrioritySignals: nat,
    veryHighStrengthSignals: nat)

  /** `get_signal_summary` over the dictionary's items, counting in iteration order. */
  method GetSignalSummary(items: seq<(string, seq<Signal>)>) returns (s: SignalSummary)
    ensures s.totalSignals == |Flatten(items)| && s.symbolsWithSignals == |items|
    ensures s.highPrioritySignals == HighPriorityCount(Flatten(items))
    ensures s.veryHighStrengthSignals == VeryHighCount(Flatten(items))
    ensures s.signalTypes == TypeCounts(Flatten(items))
    ensures s.highPrioritySignals <= s.totalSignals && s.veryHighStrengthSignals <= s.totalSignals
  {
    var total := 0;
    var types: map<string, nat> := map[];
    var high := 0;
    var veryHigh := 0;
    var i := 0;
    while i < |items|
      invariant 0 <= i <= |items|
      invariant total == |Flatten(items[..i])| && types == TypeCounts(Flatten(items[..i]))
      invariant high == HighPriorityCount(Flatten(items[..i])) && veryHigh == VeryHighCount(Flatten(items[..i]))
    {
      var sigs := items[i].1;
      ghost var done := Flatten(items[..i]);
      assert items[..i + 1][..i] == items[..i];
      assert Flatten(items[..i + 1]) == done + sigs;
      assert done + sigs[..0] == done;
      var j := 0;
      while j < |sigs|
        invariant 0 <= j <= |sigs|
        invariant total == |done + sigs[..j]| && types == TypeCounts(done + sigs[..j])
        invariant high == HighPriorityCount(done + sigs[..j]) && veryHigh == VeryHighCount(done + sigs[..j])
      {
        var sig := sigs[j];
        assert (done + sigs[..j + 1])[..|done + sigs[..j + 1]| - 1] == done + sigs[..j];
        total := total + 1;
        types := Tally(types, sig.kind);
        if sig.priority >= 3 {
          high := high + 1;
        }
        if sig.strength == VERY_HIGH {
          veryHigh := veryHigh + 1;
        }
        j := j + 1;
      }
      assert sigs[..j] == sigs;
      i := i + 1;
    }
    assert items[..i] == items;
    s := SignalSummary(total, |items|, types, high, veryHigh);
  }

  // ---------------------------------------------------------------- the detector

  class SignalDetector {
    /** `signal_history`: the time each symbol's analysis last produced signals. */
    var history: map<string, int>

    constructor ()
      ensures history == map[]
    {
      history := map[];
    }

    /** `detect_signals_for_symbol`, with the symbol's data passed in. */
    method DetectSignalsForSymbol(symbol: string, data: MarketData, now: int) returns (signals: seq<Signal>)
      modifies this
      ensures Detection(signals, history) == DetectSpec(old(history), symbol, data, now)
    {
      var sym := NormalizeSymbol(symbol);
      var key := AnalysisKey(sym);
      if key in history && (now - history[key]) as real / 60.0 < SIGNAL_COOLDOWN_MINUTES as real {
        return [];
      }
      if |data.candles| < MIN_CANDLES || data.series.None? {
        return [];
      }
      var detected := RawSignals(sym, data.candles, data.series.value);
      if detected == [] {
        return [];
      }
      history := history[key := now];
      signals := TopThree(detected);
    }

    /**
     * `detect_signals_for_all_symbols`: the symbols in order, each with the data stored
     * under its normalized name (none stored reads as no candles); only symbols that
     * produced signals get an entry.
     */
    method DetectSignalsForAllSymbols(symbols: seq<string>, market: map<string, MarketData>, now: int)
      returns (found: map<string, seq<Signal>>)
      modifies this
      ensures (found, history) == SweepSpec(old(history), symbols, market, now)
    {
      found := map[];
      var i := 0;
      while i < |symbols|
        invariant 0 <= i <= |symbols|
        invariant (found, history) == SweepSpec(old(history), symbols[..i], market, now)
      {
        assert symbols[..i + 1][..i] == symbols[..i];
        var signals := DetectSignalsForSymbol(symbols[i], DataFor(market, symbols[i]), now);
        if signals != [] {
          found := found[symbols[i] := signals];
        }
        i := i + 1;
      }
      assert symbols[..i] == symbols;
    }
  }

  function DataFor(market: map<string, MarketData>, symbol: string): MarketData
  {
    var sym := NormalizeSymbol(symbol);
    if sym in market then market[sym] else MarketData([], None)
  }

  /** The sweep as a fold over the symbols. */
  function SweepSpec(history: map<string, int>, symbols: seq<string>, market: map<string, MarketData>, now: int)
    : (res: (map<string, seq<Signal>>, map<string, int>))
    ensures forall s :: s in res.0 ==> s in symbols && res.0[s] != [] && |res.0[s]| <= 3
    decreases |symbols|
  {
    if symbols == [] then (map[], history)
    else
      var prev := SweepSpec(history, symbols[..|symbols| - 1], market, now);
      var last := symbols[|symbols| - 1];
      var d := DetectSpec(prev.1, last, DataFor(market, last), now);
      (if d.signals != [] then prev.0[last := d.signals] else prev.0, d.history)
  }

  /** A symbol repeated within the cooldown gets nothing the second time: the sweep cannot report it twice. */
  lemma RepeatedSymbolCools(history: map<string, int>, symbol: string, data: MarketData, now: int)
    requires DetectSpec(history, symbol, data, now).signals != []
    ensures DetectSpec(DetectSpec(history, symbol, data, now).history, symbol, data, now).signals == []
  {
  }
}
