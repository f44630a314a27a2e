/**
 * The technical analyzer's signal dictionary: one verdict per available indicator reading,
 * and the overall verdict voted from them. A dictionary is modelled as its items in
 * insertion order.
 */
module Technical {
  import opened Wrappers
  import opened Indicators

  /** The per-indicator labels (the strings `OVERBOUGHT`, `OVERSOLD`, ...). */
  datatype Reading = OVERBOUGHT | OVERSOLD | NEUTRAL | BULLISH | BEARISH

  /** The overall labels. */
  datatype Overall = STRONG_BUY | BUY | HOLD | SELL | STRONG_SELL

  /** The dictionary keys other than `overall`. */
  datatype Key = Rsi | Macd | Bollinger | Cci | MaTrend

  type Entry = (Key, Reading)

  /**
   * The signal dictionary: a field per key it can hold, `None` where the key is absent.
   * Its items, in insertion order, are `Items`.
   */
  datatype TechSignals = TechSignals(
    rsi: Option<Reading>,
    macd: Option<Reading>,
    bollinger: Option<Reading>,
    cci: Option<Reading>,
    maTrend: Option<Reading>,
    overall: Option<Overall>)

  const EMPTY := TechSignals(None, None, None, None, None, None)

  function Item(key: Key, v: Option<Reading>): seq<Entry>
  {
    if v.Some? then [(key, v.value)] else []
  }

  /** The items the vote iterates over: every key but `overall`, in insertion order. */
  function Items(t: TechSignals): (r: seq<Entry>)
    ensures |r| <= 5
  {
    Item(Rsi, t.rsi) + Item(Macd, t.macd) + Item(Bollinger, t.bollinger)
    + Item(Cci, t.cci) + Item(MaTrend, t.maTrend)
  }

  /** An oscillator reading against its two bands. */
  function Zone(v: real, high: real, low: real): (verdict: Reading)
    ensures verdict == OVERBOUGHT <==> v > high
    ensures verdict == OVERSOLD <==> v <= high && v < low
    ensures verdict == NEUTRAL <==> v <= high && v >= low
  {
    if v > high then OVERBOUGHT else if v < low then OVERSOLD else NEUTRAL
  }

  /** One line above or at/below another. */
  function Trend(a: real, b: real): (verdict: Reading)
    ensures verdict == BULLISH <==> a > b
    ensures verdict == BEARISH <==> a <= b
  {
    if a > b then BULLISH else BEARISH
  }

  /**
   * The per-indicator part of `_generate_signals`, for a frame whose last close is
   * `price`: a key is written exactly when its readings are present (`is not None`, so a
   * zero reading still counts).
   */
  function IndicatorSignals(c: Current, price: real): (t: TechSignals)
    ensures t.overall.None?
    ensures t.rsi.Some? <==> c.rsi.Some?
    ensures t.rsi == Some(OVERBOUGHT) <==> c.rsi.Some? && c.rsi.value > 70.0
    ensures t.rsi == Some(OVERSOLD) <==> c.rsi.Some? && c.rsi.value < 30.0
    ensures t.macd.Some? <==> c.macd.Some? && c.macdSignal.Some?
    ensures t.macd == Some(BULLISH) <==> c.macd.Some? && c.macdSignal.Some? && c.macd.value > c.macdSignal.value
    ensures t.bollinger.Some? <==> c.bbUpper.Some? && c.bbLower.Some? && c.bbMiddle.Some?
    ensures t.bollinger == Some(OVERBOUGHT) <==> t.bollinger.Some? && price > c.bbUpper.value
    ensures t.bollinger == Some(OVERSOLD) <==> t.bollinger.Some? && price <= c.bbUpper.value && price < c.bbLower.value
    ensures t.cci.Some? <==> c.cci.Some?
    ensures t.cci == Some(OVERBOUGHT) <==> c.cci.Some? && c.cci.value > 100.0
    ensures t.cci == Some(OVERSOLD) <==> c.cci.Some? && c.cci.value <= 100.0 && c.cci.value < -100.0
    ensures t.maTrend.Some? <==> c.ma20.Some? && c.ma50.Some?
    ensures t.maTrend == Some(BULLISH) <==> c.ma20.Some? && c.ma50.Some? && c.ma20.value > c.ma50.value
  {
    TechSignals(
      ZoneOf(c.rsi, 70.0, 30.0),
      TrendOf(c.macd, c.macdSignal),
      if c.bbMiddle.Some? then BandOf(price, c.bbUpper, c.bbLower) else None,
      ZoneOf(c.cci, 100.0, -100.0),
      TrendOf(c.ma20, c.ma50),
      None)
  }

  /** `Zone` of a reading that may be missing. */
  function ZoneOf(v: Option<real>, high: real, low: real): (r: Option<Reading>)
    ensures r.Some? <==> v.Some?
    ensures r.Some? ==> r.value in {OVERBOUGHT, OVERSOLD, NEUTRAL}
    ensures r == Some(OVERBOUGHT) <==> v.Some? && v.value > high
    ensures r == Some(OVERSOLD) <==> v.Some? && v.value <= high && v.value < low
  {
    if v.Some? then Some(Zone(v.value, high, low)) else None
  }

  /** `Zone` of a price against two bands that may be missing. */
  function BandOf(price: real, upper: Option<real>, lower: Option<real>): (r: Option<Reading>)
    ensures r.Some? <==> upper.Some? && lower.Some?
    ensures r.Some? ==> r.value in {OVERBOUGHT, OVERSOLD, NEUTRAL}
    ensures r == Some(OVERBOUGHT) <==> r.Some? && price > upper.value
    ensures r == Some(OVERSOLD) <==> r.Some? && price <= upper.value && price < lower.value
  {
    if upper.Some? && lower.Some? then Some(Zone(price, upper.value, lower.value)) else None
  }

  /** `Trend` of two lines that may be missing. */
  function TrendOf(a: Option<real>, b: Option<real>): (r: Option<Reading>)
    ensures r.Some? <==> a.Some? && b.Some?
    ensures r.Some? ==> r.value in {BULLISH, BEARISH}
    ensures r == Some(BULLISH) <==> a.Some? && b.Some? && a.value > b.value
  {
    if a.Some? && b.Some? then Some(Trend(a.value, b.value)) else None
  }

  // ---------------------------------------------------------------- the vote

  /** The weight table: `None` for a (key, label) pair it does not list. */
  function Weight(kind: Key, value: Reading): (w: Option<int>)
    ensures w.Some? ==> -1 <= w.value <= 1
    ensures w.Some? && w.value == 1 <==> (kind in {Rsi, Bollinger, Cci} && value == OVERSOLD)
                                         || (kind in {Macd, MaTrend} && value == BULLISH)
    ensures w.Some? && w.value == -1 <==> (kind in {Rsi, Bollinger, Cci} && value == OVERBOUGHT)
                                          || (kind in {Macd, MaTrend} && value == BEARISH)
    ensures w.None? <==> (kind in {Rsi, Bollinger, Cci} && value in {BULLISH, BEARISH})
                         || (kind in {Macd, MaTrend} && value in {OVERBOUGHT, OVERSOLD, NEUTRAL})
  {
    match kind
    case Rsi | Bollinger | Cci =>
      (match value
       case OVERSOLD => Some(1)
       case OVERBOUGHT => Some(-1)
       case NEUTRAL => Some(0)
       case _ => None)
    case Macd | MaTrend =>
      (match value
       case BULLISH => Some(1)
       case BEARISH => Some(-1)
       case _ => None)
  }

  /** The number of items the weight table lists. */
  function Counted(entries: seq<Entry>): (n: nat)
    ensures n <= |entries|
  {
    if entries == [] then 0
    else
      var e := entries[|entries| - 1];
      Counted(entries[..|entries| - 1]) + (if Weight(e.0, e.1).Some? then 1 else 0)
  }

  /** The sum of the listed weights. */
  function Score(entries: seq<Entry>): int
  {
    if entries == [] then 0
    else
      var e := entries[|entries| - 1];
      var w := Weight(e.0, e.1);
      Score(entries[..|entries| - 1]) + (if w.Some? then w.value else 0)
  }

  /** Each counted item moves the score by at most one. */
  lemma {:induction false} ScoreWithinCount(entries: seq<Entry>)
    ensures -(Counted(entries) as int) <= Score(entries) <= Counted(entries)
  {
    if entries != [] {
      ScoreWithinCount(entries[..|entries| - 1]);
    }
  }

  /** The label for a vote of `count` items summing to `score`. */
  function OverallLabel(count: nat, score: int): (verdict: Overall)
    ensures count == 0 ==> verdict == HOLD
    ensures 0 < count < 3 ==>
      (verdict == BUY <==> score >= 2) && (verdict == SELL <==> score <= -2) && (verdict == HOLD <==> -2 < score < 2)
    ensures count >= 3 ==>
      (verdict == STRONG_BUY <==> score >= 3) && (verdict == BUY <==> 1 <= score < 3)
      && (verdict == STRONG_SELL <==> score <= -3) && (verdict == SELL <==> -3 < score <= -1)
      && (verdict == HOLD <==> score == 0)
  {
    if count == 0 then HOLD
    else if count < 3 then
      if score >= 2 then BUY else if score <= -2 then SELL else HOLD
    else
      if score >= 3 then STRONG_BUY
      else if score >= 1 then BUY
      else if score <= -3 then STRONG_SELL
      else if score <= -1 then SELL
      else HOLD
  }

  /** `_calculate_overall_signal`: accumulates score and count over the items, then labels. */
  method CalculateOverallSignal(entries: seq<Entry>) returns (verdict: Overall)
    ensures verdict == OverallLabel(Counted(entries), Score(entries))
  {
    var total := 0;
    var count := 0;
    var i := 0;
    while i < |entries|
      invariant 0 <= i <= |entries|
      invariant total == Score(entries[..i]) && count == Counted(entries[..i])
    {
      assert entries[..i + 1][..i] == entries[..i];
      var w := Weight(entries[i].0, entries[i].1);
      if w.Some? {
        total := total + w.value;
        count := count + 1;
      }
      i := i + 1;
    }
    assert entries[..i] == entries;
    verdict := OverallLabel(count, total);
  }

  lemma {:induction false} AllListedCounted(entries: seq<Entry>)
    requires forall i :: 0 <= i < |entries| ==> Weight(entries[i].0, entries[i].1).Some?
    ensures Counted(entries) == |entries|
  {
    if entries != [] {
      AllListedCounted(entries[..|entries| - 1]);
    }
  }

  /** Every item `_generate_signals` writes before the vote is one the weight table lists. */
  lemma IndicatorItemsAllCounted(c: Current, price: real)
    ensures Counted(Items(IndicatorSignals(c, price))) == |Items(IndicatorSignals(c, price))|
  {
    var items := Items(IndicatorSignals(c, price));
    forall i | 0 <= i < |items|
      ensures Weight(items[i].0, items[i].1).Some?
    {
      assert items[i] in items;
    }
    AllListedCounted(items);
  }

  /**
   * `_generate_signals` on a frame whose closes are `closes`: an empty frame raises at
   * the last close and yields the empty dictionary; otherwise the indicator keys and
   * `overall`, the label of a vote in which every written key counts.
   */
  method GenerateSignals(c: Current, closes: seq<real>) returns (signals: TechSignals)
    ensures closes == [] ==> signals == EMPTY
    ensures closes != [] ==>
      var t := IndicatorSignals(c, closes[|closes| - 1]);
      signals == t.(overall := Some(OverallLabel(|Items(t)|, Score(Items(t)))))
  {
    if closes == [] {
      return EMPTY;
    }
    var t := IndicatorSignals(c, closes[|closes| - 1]);
    var overall := CalculateOverallSignal(Items(t));
    IndicatorItemsAllCounted(c, closes[|closes| - 1]);
    signals := t.(overall := Some(overall));
  }

  /** With every reading present, all five indicators vote, so a STRONG label is reachable. */
  lemma FullReadingsVoteFive(c: Current, price: real)
    requires c.rsi.Some? && c.macd.Some? && c.macdSignal.Some? && c.bbUpper.Some? && c.bbLower.Some?
    requires c.bbMiddle.Some? && c.cci.Some? && c.ma20.Some? && c.ma50.Some?
    ensures |Items(IndicatorSignals(c, price))| == 5
  {
  }
}
