/**
 * The detectors of the signal detector: crossovers of two series, reversals of an
 * oscillator against the mean of its previous three readings, band-width breakouts,
 * volume surges and multi-indicator consensus; and the strength ranking that keeps the
 * three strongest signals.
 */
module Signals {
  import opened Wrappers
  import opened Indicators

  const VERY_HIGH: string := "VERY_HIGH"
  const HIGH: string := "HIGH"
  const MEDIUM: string := "MEDIUM"
  const LOW: string := "LOW"
  const BUY: string := "BUY"
  const SELL: string := "SELL"

  /** A detected signal (its free-text description is not modelled). */
  datatype Signal = Signal(symbol: string, kind: string, strength: string, value: real, direction: string, priority: int)

  /** `_get_strength_score`: unknown strengths score like LOW. */
  function StrengthScore(strength: string): (n: int)
    ensures 1 <= n <= 4
    ensures n == 4 <==> strength == VERY_HIGH
    ensures n == 3 <==> strength == HIGH
    ensures n == 2 <==> strength == MEDIUM
  {
    if strength == VERY_HIGH then 4
    else if strength == HIGH then 3
    else if strength == MEDIUM then 2
    else 1
  }

  // ---------------------------------------------------------------- crossovers

  datatype Cross = Upward | Downward | NoCross

  /** A sign flip of `fast - slow` between two consecutive readings. */
  function Crossing(prev: real, curr: real): (c: Cross)
    ensures c == Upward <==> prev <= 0.0 < curr
    ensures c == Downward <==> prev >= 0.0 > curr
    ensures curr == 0.0 ==> c == NoCross
  {
    if prev <= 0.0 && curr > 0.0 then Upward
    else if prev >= 0.0 && curr < 0.0 then Downward
    else NoCross
  }

  /** The previous and current difference of two series, and the last slow value. */
  datatype Diffs = Diffs(prev: real, curr: real, base: real)

  /**
   * The two last differences over the present values among the last five samples;
   * `None` when either series has fewer than five samples or fewer than four present.
   */
  function RecentDiffs(fast: seq<Option<real>>, slow: seq<Option<real>>): (d: Option<Diffs>)
    ensures d.Some? ==> |fast| >= 5 && |slow| >= 5
  {
    if |fast| < 5 || |slow| < 5 then None
    else
      var a := Present(fast[|fast| - 5..]);
      var b := Present(slow[|slow| - 5..]);
      if |a| < 4 || |b| < 4 then None
      else Some(Diffs(a[|a| - 2] - b[|b| - 2], a[|a| - 1] - b[|b| - 1], b[|b| - 1]))
  }

  /** The MA crossover strength by the gap in percent of the slow average. */
  function GapStrength(pct: real): (s: string)
    ensures s == VERY_HIGH <==> pct > 1.0
    ensures s == HIGH <==> 0.5 < pct <= 1.0
    ensures s == MEDIUM <==> pct <= 0.5
  {
    if pct > 1.0 then VERY_HIGH else if pct > 0.5 then HIGH else MEDIUM
  }

  /** `_detect_real_ma_crossover`; a zero slow average raises, which yields no signal. */
  function MaCrossover(symbol: string, ma20: seq<Option<real>>, ma50: seq<Option<real>>): (r: seq<Signal>)
    ensures |r| <= 1
    ensures r != [] ==> (
      var d := RecentDiffs(ma20, ma50);
      d.Some? && d.value.base != 0.0 && Crossing(d.value.prev, d.value.curr) != NoCross
      && (r[0].direction == BUY <==> Crossing(d.value.prev, d.value.curr) == Upward)
      && (r[0].kind == "GOLDEN_CROSS" <==> r[0].direction == BUY)
      && r[0].value == Abs(d.value.curr) / d.value.base * 100.0
      && r[0].strength == GapStrength(r[0].value)
      && (r[0].priority == 4 <==> r[0].strength == VERY_HIGH)
      && (r[0].priority == 3 <==> r[0].strength != VERY_HIGH))
    ensures RecentDiffs(ma20, ma50).Some? && RecentDiffs(ma20, ma50).value.base != 0.0
            && Crossing(RecentDiffs(ma20, ma50).value.prev, RecentDiffs(ma20, ma50).value.curr) != NoCross
            ==> r != []
  {
    var d := RecentDiffs(ma20, ma50);
    if d.None? then []
    else
      var c := Crossing(d.value.prev, d.value.curr);
      if c == NoCross || d.value.base == 0.0 then []
      else
        var pct := Abs(d.value.curr) / d.value.base * 100.0;
        var strength := GapStrength(pct);
        var prio := if strength == VERY_HIGH then 4 else 3;
        if c == Upward then [Signal(symbol, "GOLDEN_CROSS", strength, pct, BUY, prio)]
        else [Signal(symbol, "DEAD_CROSS", strength, pct, SELL, prio)]
  }

  /** `_detect_real_macd_crossover` */
  function MacdCrossover(symbol: string, macd: seq<Option<real>>, signal: seq<Option<real>>): (r: seq<Signal>)
    ensures |r| <= 1
    ensures r != [] ==> (
      var d := RecentDiffs(macd, signal);
      d.Some? && Crossing(d.value.prev, d.value.curr) != NoCross
      && (r[0].direction == BUY <==> Crossing(d.value.prev, d.value.curr) == Upward)
      && (r[0].kind == "MACD_BULLISH_CROSS" <==> r[0].direction == BUY)
      && r[0].value == Abs(d.value.curr)
      && (r[0].strength == HIGH <==> r[0].value > 0.001)
      && (r[0].strength == MEDIUM <==> r[0].value <= 0.001)
      && (r[0].priority == 3 <==> r[0].strength == HIGH)
      && (r[0].priority == 2 <==> r[0].strength == MEDIUM))
    ensures RecentDiffs(macd, signal).Some?
            && Crossing(RecentDiffs(macd, signal).value.prev, RecentDiffs(macd, signal).value.curr) != NoCross
            ==> r != []
  {
    var d := RecentDiffs(macd, signal);
    if d.None? then []
    else
      var c := Crossing(d.value.prev, d.value.curr);
      if c == NoCross then []
      else
        var gap := Abs(d.value.curr);
        var strength := if gap > 0.001 then HIGH else MEDIUM;
        var prio := if strength == HIGH then 3 else 2;
        if c == Upward then [Signal(symbol, "MACD_BULLISH_CROSS", strength, gap, BUY, prio)]
        else [Signal(symbol, "MACD_BEARISH_CROSS", strength, gap, SELL, prio)]
  }

  // ---------------------------------------------------------------- reversals

  /** An oscillator's current reading and the mean of the three readings before it. */
  datatype Reading = Reading(current: real, trend: real)

  /**
   * Over the present values among the last ten samples; `None` when the series has
   * fewer than ten samples or fewer than eight present.
   */
  function RecentReading(s: seq<Option<real>>): (r: Option<Reading>)
    ensures r.Some? ==> |s| >= 10
  {
    if |s| < 10 then None
    else
      var p := Present(s[|s| - 10..]);
      if |p| < 8 then None
      else Some(Reading(p[|p| - 1], (p[|p| - 4] + p[|p| - 3] + p[|p| - 2]) / 3.0))
  }

  /** `_detect_rsi_reversal`: a turn up out of oversold (35) or down out of overbought (65). */
  function RsiReversal(symbol: string, rsi: seq<Option<real>>): (r: seq<Signal>)
    ensures |r| <= 1
    ensures r != [] ==> RecentReading(rsi).Some? && r[0].value == RecentReading(rsi).value.current
    ensures r != [] && r[0].direction == BUY ==>
      r[0].value <= 35.0 && r[0].value > RecentReading(rsi).value.trend
    ensures r != [] && r[0].direction != BUY ==>
      r[0].direction == SELL && r[0].value >= 65.0 && r[0].value < RecentReading(rsi).value.trend
    ensures r != [] ==> (r[0].strength == VERY_HIGH <==> r[0].value <= 25.0 || r[0].value >= 75.0)
    ensures r != [] ==> (r[0].priority == 4 <==> r[0].strength == VERY_HIGH)
    ensures RecentReading(rsi).Some? ==> (
      var x := RecentReading(rsi).value;
      (x.current <= 35.0 && x.current > x.trend) || (x.current >= 65.0 && x.current < x.trend) ==> r != [])
  {
    var x := RecentReading(rsi);
    if x.None? then []
    else
      var cur := x.value.current;
      if cur <= 35.0 && cur > x.value.trend then
        var strength := if cur <= 25.0 then VERY_HIGH else if cur <= 30.0 then HIGH else MEDIUM;
        [Signal(symbol, "RSI_OVERSOLD_REVERSAL", strength, cur, BUY, if strength == VERY_HIGH then 4 else 3)]
      else if cur >= 65.0 && cur < x.value.trend then
        var strength := if cur >= 75.0 then VERY_HIGH else if cur >= 70.0 then HIGH else MEDIUM;
        [Signal(symbol, "RSI_OVERBOUGHT_REVERSAL", strength, cur, SELL, if strength == VERY_HIGH then 4 else 3)]
      else []
  }

  /** `_detect_cci_reversal`: the same rule at -80 and 80. */
  function CciReversal(symbol: string, cci: seq<Option<real>>): (r: seq<Signal>)
    ensures |r| <= 1
    ensures r != [] ==> RecentReading(cci).Some? && r[0].value == RecentReading(cci).value.current
    ensures r != [] && r[0].direction == BUY ==>
      r[0].value <= -80.0 && r[0].value > RecentReading(cci).value.trend
    ensures r != [] && r[0].direction != BUY ==>
      r[0].direction == SELL && r[0].value >= 80.0 && r[0].value < RecentReading(cci).value.trend
    ensures r != [] ==> (r[0].strength == HIGH <==> r[0].value <= -120.0 || r[0].value >= 120.0)
    ensures r != [] ==> (r[0].priority == 3 <==> r[0].strength == HIGH)
    ensures RecentReading(cci).Some? ==> (
      var x := RecentReading(cci).value;
      (x.current <= -80.0 && x.current > x.trend) || (x.current >= 80.0 && x.current < x.trend) ==> r != [])
  {
    var x := RecentReading(cci);
    if x.None? then []
    else
      var cur := x.value.current;
      if cur <= -80.0 && cur > x.value.trend then
        var strength := if cur <= -120.0 then HIGH else MEDIUM;
        [Signal(symbol, "CCI_OVERSOLD_REVERSAL", strength, cur, BUY, if strength == HIGH then 3 else 2)]
      else if cur >= 80.0 && cur < x.value.trend then
        var strength := if cur >= 120.0 then HIGH else MEDIUM;
        [Signal(symbol, "CCI_OVERBOUGHT_REVERSAL", strength, cur, SELL, if strength == HIGH then 3 else 2)]
      else []
  }

  // ---------------------------------------------------------------- band breakout

  /** Python's `s[-k]`. */
  function At(s: seq<real>, k: nat): real
    requires 1 <= k <= |s|
  {
    s[|s| - k]
  }

  /** Band width at `s[-k]`, in percent of the middle band. */
  function Width(u: seq<real>, l: seq<real>, m: seq<real>, k: nat): real
    requires 1 <= k <= |u| && k <= |l| && k <= |m| && At(m, k) != 0.0
  {
    (At(u, k) - At(l, k)) / At(m, k) * 100.0
  }

  /** The middle band is non-zero at `s[-1]` through `s[-k]`. */
  predicate MiddleNonZero(m: seq<real>, k: nat)
    requires k <= |m|
  {
    forall i :: |m| - k <= i < |m| ==> m[i] != 0.0
  }

  /** Sum of the widths at `s[-lo]` through `s[-hi]`. */
  function WidthSum(u: seq<real>, l: seq<real>, m: seq<real>, lo: nat, hi: nat): real
    requires 1 <= lo && hi <= |u| && hi <= |l| && hi <= |m| && MiddleNonZero(m, hi)
    decreases hi - lo
  {
    if lo > hi then 0.0 else Width(u, l, m, lo) + WidthSum(u, l, m, lo + 1, hi)
  }

  /** The current width, the mean of the nine before it, and the previous bands. */
  datatype Band = Band(width: real, meanWidth: real, prevUpper: real, prevLower: real)

  /**
   * The band readings over the present values among the last twenty samples; `None`
   * when the upper or lower series is too short or too sparse, and where the source
   * raises (a middle band with fewer than ten present values, or zero among them).
   */
  function BandReadings(upper: seq<Option<real>>, middle: seq<Option<real>>, lower: seq<Option<real>>)
    : (b: Option<Band>)
  {
    if |upper| < 20 || |lower| < 20 then None
    else
      var u := Present(upper[|upper| - 20..]);
      var l := Present(lower[|lower| - 20..]);
      var m := Present(Tail(middle, 20));
      if |u| < 15 || |l| < 15 || |m| < 10 || !MiddleNonZero(m, 10) then None
      else Some(Band(Width(u, l, m, 1), WidthSum(u, l, m, 2, 10) / 9.0, At(u, 2), At(l, 2)))
  }

  /** `_detect_bollinger_breakout`: a widening band broken through its previous edge. */
  function BollingerBreakout(symbol: string, upper: seq<Option<real>>, middle: seq<Option<real>>,
                             lower: seq<Option<real>>, price: real): (r: seq<Signal>)
    ensures |r| <= 1
    ensures r != [] ==> (
      var b := BandReadings(upper, middle, lower);
      b.Some? && b.value.width > b.value.meanWidth * 1.2
      && r[0].strength == HIGH && r[0].priority == 3
      && (r[0].direction == BUY <==> price > b.value.prevUpper)
      && (r[0].direction == SELL <==> price <= b.value.prevUpper && price < b.value.prevLower))
    ensures BandReadings(upper, middle, lower).Some? ==> (
      var b := BandReadings(upper, middle, lower).value;
      (b.width > b.meanWidth * 1.2 && b.prevUpper != 0.0 && b.prevLower != 0.0
       && (price > b.prevUpper || price < b.prevLower)) ==> r != [])
  {
    var b := BandReadings(upper, middle, lower);
    if b.None? || !(b.value.width > b.value.meanWidth * 1.2) then []
    else if price > b.value.prevUpper then
      // The breakout size divides by the previous upper band.
      if b.value.prevUpper == 0.0 then []
      else [Signal(symbol, "BB_UPWARD_BREAKOUT", HIGH, (price - b.value.prevUpper) / b.value.prevUpper * 100.0, BUY, 3)]
    else if price < b.value.prevLower then
      if b.value.prevLower == 0.0 then []
      else [Signal(symbol, "BB_DOWNWARD_BREAKOUT", HIGH, (b.value.prevLower - price) / b.value.prevLower * 100.0, SELL, 3)]
    else []
  }

  // ---------------------------------------------------------------- volume surge

  function VolumeSum(cs: seq<Candle>): real
  {
    if cs == [] then 0.0 else VolumeSum(cs[..|cs| - 1]) + cs[|cs| - 1].volume
  }

  /** The last volume, the mean of the twenty before it, and the last close-to-close change in percent. */
  datatype Surge = Surge(volume: real, meanVolume: real, changePct: real)

  /** `None` for fewer than thirty candles, or a previous close of zero. */
  function SurgeReadings(candles: seq<Candle>): (s: Option<Surge>)
    ensures s.Some? ==> |candles| >= 30
  {
    if |candles| < 30 then None
    else
      var n := |candles|;
      var prev := candles[n - 2].close;
      if prev == 0.0 then None
      else Some(Surge(candles[n - 1].volume, VolumeSum(candles[n - 21..n - 1]) / 20.0,
                      (candles[n - 1].close - prev) / prev * 100.0))
  }

  /** `_detect_volume_price_surge`: volume above 2.5 times its mean with a move beyond 2%. */
  function VolumeSurge(symbol: string, candles: seq<Candle>): (r: seq<Signal>)
    ensures |r| <= 1
    ensures r != [] ==> (
      var s := SurgeReadings(candles);
      s.Some? && s.value.volume > s.value.meanVolume * 2.5 && Abs(s.value.changePct) > 2.0
      && r[0].value == Abs(s.value.changePct)
      && (r[0].direction == BUY <==> s.value.changePct > 0.0)
      && (r[0].strength == VERY_HIGH <==> Abs(s.value.changePct) > 5.0)
      && (r[0].strength != VERY_HIGH ==> r[0].strength == HIGH)
      && (r[0].priority == 4 <==> r[0].strength == VERY_HIGH))
    ensures (SurgeReadings(candles).Some? && SurgeReadings(candles).value.volume > SurgeReadings(candles).value.meanVolume * 2.5
             && Abs(SurgeReadings(candles).value.changePct) > 2.0) ==> r != []
  {
    var s := SurgeReadings(candles);
    if s.None? || !(s.value.volume > s.value.meanVolume * 2.5) then []
    else
      var pct := s.value.changePct;
      if pct > 2.0 then
        var strength := if pct > 5.0 then VERY_HIGH else HIGH;
        [Signal(symbol, "VOLUME_PRICE_SURGE_UP", strength, pct, BUY, if strength == VERY_HIGH then 4 else 3)]
      else if pct < -2.0 then
        var strength := if pct < -5.0 then VERY_HIGH else HIGH;
        [Signal(symbol, "VOLUME_PRICE_SURGE_DOWN", strength, Abs(pct), SELL, if strength == VERY_HIGH then 4 else 3)]
      else []
  }

  // ---------------------------------------------------------------- consensus

  /** One vote: +1 bullish, -1 bearish, 0 none. */
  function Vote(bullish: bool, bearish: bool): int
  {
    if bullish then 1 else if bearish then -1 else 0
  }

  /** The votes of RSI, MACD, the moving averages and CCI; falsy readings abstain. */
  function Votes(c: Current): (v: seq<int>)
    ensures |v| == 4
    ensures forall i :: 0 <= i < 4 ==> -1 <= v[i] <= 1
  {
    [ if Truthy(c.rsi) then Vote(c.rsi.value < 40.0, c.rsi.value > 60.0) else 0,
      if Truthy(c.macd) && Truthy(c.macdSignal) then Vote(c.macd.value > c.macdSignal.value, true) else 0,
      if Truthy(c.ma20) && Truthy(c.ma50) then Vote(c.ma20.value > c.ma50.value, true) else 0,
      if Truthy(c.cci) then Vote(c.cci.value < -50.0, c.cci.value > 50.0) else 0 ]
  }

  function CountOf(v: seq<int>, x: int): (n: nat)
    ensures n <= |v|
  {
    if v == [] then 0 else CountOf(v[..|v| - 1], x) + (if v[|v| - 1] == x then 1 else 0)
  }

  lemma {:induction false} CountsDisjoint(v: seq<int>)
    ensures CountOf(v, 1) + CountOf(v, -1) <= |v|
  {
    if v != [] {
      CountsDisjoint(v[..|v| - 1]);
    }
  }

  /** `_detect_multi_indicator_consensus`: three or more agreeing votes, bullish checked first. */
  function Consensus(symbol: string, c: Current): (r: seq<Signal>)
    ensures |r| <= 1
    ensures CountOf(Votes(c), 1) + CountOf(Votes(c), -1) <= 4
    ensures r != [] <==> CountOf(Votes(c), 1) >= 3 || CountOf(Votes(c), -1) >= 3
    ensures r != [] ==> (r[0].direction == BUY <==> CountOf(Votes(c), 1) >= 3)
    ensures r != [] ==> r[0].value == (if r[0].direction == BUY then CountOf(Votes(c), 1) else CountOf(Votes(c), -1)) as real
    ensures r != [] ==> (r[0].strength == VERY_HIGH <==> r[0].value == 4.0)
    ensures r != [] ==> (r[0].priority == 4 <==> r[0].strength == VERY_HIGH)
  {
    var v := Votes(c);
    CountsDisjoint(v);
    var bull := CountOf(v, 1);
    var bear := CountOf(v, -1);
    if bull >= 3 then
      var strength := if bull >= 4 then VERY_HIGH else HIGH;
      [Signal(symbol, "MULTI_INDICATOR_BULLISH", strength, bull as real, BUY, if strength == VERY_HIGH then 4 else 3)]
    else if bear >= 3 then
      var strength := if bear >= 4 then VERY_HIGH else HIGH;
      [Signal(symbol, "MULTI_INDICATOR_BEARISH", strength, bear as real, SELL, if strength == VERY_HIGH then 4 else 3)]
    else []
  }

  // ---------------------------------------------------------------- ranking

  /** The signals of one strength, in their original order. */
  function OfStrength(sigs: seq<Signal>, strength: string): (r: seq<Signal>)
    ensures |r| <= |sigs|
    ensures forall i :: 0 <= i < |r| ==> r[i].strength == strength
  {
    if sigs == [] then []
    else (if sigs[0].strength == strength then [sigs[0]] else []) + OfStrength(sigs[1..], strength)
  }

  predicate Reportable(s: Signal)
  {
    s.strength == MEDIUM || s.strength == HIGH || s.strength == VERY_HIGH
  }

  /** The signals rated MEDIUM or above, in their original order. */
  function ReportableOnly(sigs: seq<Signal>): (r: seq<Signal>)
    ensures forall i :: 0 <= i < |r| ==> Reportable(r[i])
  {
    if sigs == [] then []
    else (if Reportable(sigs[0]) then [sigs[0]] else []) + ReportableOnly(sigs[1..])
  }

  /**
   * The stable sort by strength score, strongest first, of the reportable signals: the
   * only keys left after filtering are 4, 3 and 2, so the sort is the concatenation of
   * the three strength classes, each in its original order.
   */
  function Ranked(sigs: seq<Signal>): seq<Signal>
  {
    OfStrength(sigs, VERY_HIGH) + OfStrength(sigs, HIGH) + OfStrength(sigs, MEDIUM)
  }

  /** The filtered, sorted signals cut to the first three. */
  function TopThree(sigs: seq<Signal>): (r: seq<Signal>)
    ensures |r| <= 3
  {
    var ranked := Ranked(sigs);
    if |ranked| <= 3 then ranked else ranked[..3]
  }

  /** The ranking is non-increasing in strength score. */
  lemma RankedSorted(sigs: seq<Signal>)
    ensures var r := Ranked(sigs);
      forall i, j :: 0 <= i < j < |r| ==> StrengthScore(r[i].strength) >= StrengthScore(r[j].strength)
  {
    var a := OfStrength(sigs, VERY_HIGH);
    var b := OfStrength(sigs, HIGH);
    var c := OfStrength(sigs, MEDIUM);
    var r := a + b + c;
    forall i, j | 0 <= i < j < |r|
      ensures StrengthScore(r[i].strength) >= StrengthScore(r[j].strength)
    {
      if i < |a| {
        assert r[i] == a[i];
      } else if i < |a| + |b| {
        assert r[i] == b[i - |a|];
        assert r[j] == (b + c)[j - |a|];
        if j >= |a| + |b| {
          assert r[j] == c[j - |a| - |b|];
        } else {
          assert r[j] == b[j - |a|];
        }
      } else {
        assert r[i] == c[i - |a| - |b|];
        assert r[j] == c[j - |a| - |b|];
      }
    }
  }

  /** The ranking holds exactly the reportable signals, with their multiplicities. */
  lemma {:induction false} RankedIsPermutation(sigs: seq<Signal>)
    ensures multiset(Ranked(sigs)) == multiset(ReportableOnly(sigs))
  {
    if sigs != [] {
      RankedIsPermutation(sigs[1..]);
      RankedHead(sigs);
      ReportableHead(sigs);
    }
  }

  /** What the first signal adds to the ranking. */
  lemma RankedHead(sigs: seq<Signal>)
    requires sigs != []
    ensures multiset(Ranked(sigs)) == Head(sigs) + multiset(Ranked(sigs[1..]))
  {
    var rest := sigs[1..];
    var va := OfStrengthHead(sigs, VERY_HIGH);
    var hi := OfStrengthHead(sigs, HIGH);
    var me := OfStrengthHead(sigs, MEDIUM);
    calc {
      multiset(Ranked(sigs));
      (va + multiset(OfStrength(rest, VERY_HIGH))) + (hi + multiset(OfStrength(rest, HIGH)))
        + (me + multiset(OfStrength(rest, MEDIUM)));
      (va + hi + me) + multiset(Ranked(rest));
    }
  }

  /** What the first signal adds to the reportable ones: the same as to the ranking. */
  lemma ReportableHead(sigs: seq<Signal>)
    requires sigs != []
    ensures multiset(ReportableOnly(sigs)) == Head(sigs) + multiset(ReportableOnly(sigs[1..]))
  {
    assert ReportableOnly(sigs) == (if Reportable(sigs[0]) then [sigs[0]] else []) + ReportableOnly(sigs[1..]);
  }

  function Head(sigs: seq<Signal>): multiset<Signal>
    requires sigs != []
  {
    OfStrengthHead(sigs, VERY_HIGH) + OfStrengthHead(sigs, HIGH) + OfStrengthHead(sigs, MEDIUM)
  }

  /** What the first signal adds to its strength class: itself, or nothing. */
  function OfStrengthHead(sigs: seq<Signal>, strength: string): (m: multiset<Signal>)
    requires sigs != []
    ensures multiset(OfStrength(sigs, strength)) == m + multiset(OfStrength(sigs[1..], strength))
  {
    if sigs[0].strength == strength then multiset{sigs[0]} else multiset{}
  }

  /** Within one strength the ranking keeps the original order (the sort is stable). */
  lemma {:induction false} RankedIsStable(sigs: seq<Signal>, strength: string)
    requires strength == VERY_HIGH || strength == HIGH || strength == MEDIUM
    ensures OfStrength(Ranked(sigs), strength) == OfStrength(sigs, strength)
  {
    var a := OfStrength(sigs, VERY_HIGH);
    var b := OfStrength(sigs, HIGH);
    var c := OfStrength(sigs, MEDIUM);
    OfStrengthConcat(a + b, c, strength);
    OfStrengthConcat(a, b, strength);
    OnlyOneStrength(a, VERY_HIGH, strength);
    OnlyOneStrength(b, HIGH, strength);
    OnlyOneStrength(c, MEDIUM, strength);
  }

  lemma {:induction false} OfStrengthConcat(s: seq<Signal>, t: seq<Signal>, strength: string)
    ensures OfStrength(s + t, strength) == OfStrength(s, strength) + OfStrength(t, strength)
  {
    if s == [] {
      assert s + t == t;
    } else {
      assert (s + t)[1..] == s[1..] + t;
      OfStrengthConcat(s[1..], t, strength);
    }
  }

  /** Filtering a one-strength sequence keeps all of it for that strength and none for another. */
  lemma {:induction false} OnlyOneStrength(s: seq<Signal>, has: string, strength: string)
    requires forall i :: 0 <= i < |s| ==> s[i].strength == has
    ensures OfStrength(s, strength) == if has == strength then s else []
  {
    if s != [] {
      OnlyOneStrength(s[1..], has, strength);
    }
  }

  /** The kept signals are the strongest: none left out outranks one kept. */
  lemma TopThreeIsStrongest(sigs: seq<Signal>)
    ensures var r := Ranked(sigs); var top := TopThree(sigs);
      top == r[..|top|]
      && (forall i, j :: 0 <= i < |top| <= j < |r| ==> StrengthScore(top[i].strength) >= StrengthScore(r[j].strength))
      && |top| == (if |r| < 3 then |r| else 3)
  {
    RankedSorted(sigs);
  }

  lemma {:induction false} ReportableOnlyIsSub(sigs: seq<Signal>, x: Signal)
    requires x in ReportableOnly(sigs)
    ensures x in sigs && Reportable(x)
  {
    if sigs != [] && x != sigs[0] {
      ReportableOnlyIsSub(sigs[1..], x);
    }
  }

  /** What is kept is among the given signals, reportable, and strongest first. */
  lemma TopThreeFacts(sigs: seq<Signal>)
    ensures var top := TopThree(sigs);
      (forall i :: 0 <= i < |top| ==> top[i] in sigs && Reportable(top[i]))
      && (forall i, j :: 0 <= i < j < |top| ==> StrengthScore(top[i].strength) >= StrengthScore(top[j].strength))
  {
    RankedSorted(sigs);
    RankedFromReportable(sigs);
  }

  /** Every ranked signal is one of the given ones, and reportable. */
  lemma RankedFromReportable(sigs: seq<Signal>)
    ensures forall x :: x in Ranked(sigs) ==> x in sigs && Reportable(x)
  {
    RankedIsPermutation(sigs);
    forall x | x in Ranked(sigs)
      ensures x in sigs && Reportable(x)
    {
      assert x in multiset(Ranked(sigs));
      ReportableOnlyIsSub(sigs, x);
    }
  }
}
