/** The ledger invariant `Valid` is kept by every operation, and the trailing stop only tightens. */
module LedgerInvariant {
  import opened Wrappers
  import opened Config
  import opened Ledger
  import opened LedgerFacts

  lemma OpenKeepsValid(l: Ledger, sym: string, direction: string, price: real, leverage: real,
                       target: Option<real>, stop: Option<real>, now: int)
    requires ValidLedger(l) && NormalForm(sym)
    ensures ValidLedger(OpenSpec(l, sym, direction, price, leverage, target, stop, now).1)
  {
  }

  /** Selling a non-negative share of a non-negative investment never debits the balance. */
  lemma ProceedsNonNegative(p: Position, price: real, ratio: real)
    requires p.invested >= 0.0 && ratio >= 0.0 && ExitMetrics(p, price, ratio).Some?
    ensures Proceeds(ExitMetrics(p, price, ratio).value) >= 0.0
  {
    var m := Metrics(p, ExitFill(p, price), p.size * ratio).value;
    ShareOfRatio(p, ratio);
    assert p.invested * ratio >= 0.0;
    assert m.value >= 0.0;
  }

  /** What a partial exit leaves of a valid position is still a valid position. */
  lemma RemainderValid(p: Position, ratio: real, fee: real, reason: string)
    requires NormalForm(p.symbol) && p.entryPrice != 0.0 && p.invested >= 0.0 && TrailingConsistent(p)
    requires ratio <= 1.0
    ensures var q := Remainder(p, ratio, fee, reason);
      NormalForm(q.symbol) && q.entryPrice != 0.0 && q.invested >= 0.0 && TrailingConsistent(q)
  {
    assert 1.0 - ratio >= 0.0;
    assert p.invested * (1.0 - ratio) >= 0.0;
  }

  /** An exit of a share between none and all of the position keeps the ledger valid. */
  lemma ExitKeepsValid(l: Ledger, price: real, reason: string, ratio: real)
    requires ValidLedger(l) && 0.0 <= ratio <= 1.0
    ensures ValidLedger(ExitSpec(l, price, reason, ratio).1)
  {
    ExitFailureKeepsLedger(l, price, reason, ratio);
    if ExitSpec(l, price, reason, ratio).0.Some? {
      ExitSucceeded(l, price, reason, ratio);
      var p := l.position.value;
      var m := ExitMetrics(p, price, ratio).value;
      ProceedsNonNegative(p, price, ratio);
      ExitShape(l, price, reason, ratio);
      if ratio < 1.0 {
        RemainderValid(p, ratio, ExitFee(m), reason);
      }
    }
  }

  lemma EnterKeepsValid(l: Ledger, symbol: string, direction: string, price: real, leverage: real,
                        target: Option<real>, stop: Option<real>, now: int, force: bool)
    requires ValidLedger(l)
    ensures ValidLedger(EnterSpec(l, symbol, direction, price, leverage, target, stop, now, force).1)
    decreases if force then 0 else 2
  {
    var sym := NormalizeSymbol(symbol);
    NormalizeGivesNormalForm(symbol);
    if l.position.Some? && !force {
      var cur := l.position.value;
      if cur.symbol == sym && cur.direction == direction {
      } else if cur.symbol == sym {
        FlipKeepsValid(l, direction, price, leverage, target, stop, now);
      } else {
        ExitKeepsValid(l, price, "Position Switch", 1.0);
        OpenKeepsValid(ExitSpec(l, price, "Position Switch", 1.0).1, sym, direction, price, leverage, target, stop, now);
      }
    } else {
      OpenKeepsValid(l, sym, direction, price, leverage, target, stop, now);
    }
  }

  lemma FlipKeepsValid(l: Ledger, direction: string, price: real, leverage: real,
                       target: Option<real>, stop: Option<real>, now: int)
    requires ValidLedger(l)
    ensures ValidLedger(FlipSpec(l, direction, price, leverage, target, stop, now).1)
    decreases 1
  {
    var ex := ExitSpec(l, price, "Position Flip", 1.0);
    ExitKeepsValid(l, price, "Position Flip", 1.0);
    if ex.0.Some? {
      EnterKeepsValid(ex.1, ex.0.value.symbol, direction, price, leverage, target, stop, now, true);
    }
  }

  lemma TrailingKeepsValid(l: Ledger, price: real)
    requires ValidLedger(l)
    ensures ValidLedger(TrailingSpec(l, price).1)
  {
    if l.position.Some? {
      var q := TrailingSpec(l, price).1.position.value;
      assert q.symbol == l.position.value.symbol;
    }
  }

  lemma PartialTakeProfitKeepsValid(l: Ledger, price: real)
    requires ValidLedger(l)
    ensures ValidLedger(PartialTakeProfitSpec(l, price).1)
  {
    ExitKeepsValid(l, price, PARTIAL_REASON, PARTIAL_RATIO);
  }

  /** One trailing update never loosens an existing stop. */
  lemma StopOnlyTightens(l: Ledger, price: real)
    requires ValidLedger(l) && l.position.Some? && l.position.value.trailingStop.Some?
    ensures var q := TrailingSpec(l, price).1.position.value;
      q.trailingStop.Some?
      && (l.position.value.direction == LONG ==> q.trailingStop.value >= l.position.value.trailingStop.value)
      && (l.position.value.direction != LONG ==> q.trailingStop.value <= l.position.value.trailingStop.value)
  {
  }

  /** Trailing updates applied to a sequence of observed prices, in order. */
  function TrailAll(l: Ledger, prices: seq<real>): Ledger
    decreases |prices|
  {
    if prices == [] then l else TrailAll(TrailingSpec(l, prices[0]).1, prices[1..])
  }

  function Max(a: real, b: real): real
  {
    if a >= b then a else b
  }

  /** The largest of `h` and all of `prices`. */
  function RunningMax(h: real, prices: seq<real>): (r: real)
    ensures r >= h && forall i :: 0 <= i < |prices| ==> r >= prices[i]
    decreases |prices|
  {
    if prices == [] then h else RunningMax(Max(h, prices[0]), prices[1..])
  }

  /**
   * Over any sequence of prices, a LONG position's watermark is the highest price seen
   * (or its entry watermark), and the position is otherwise unchanged apart from the stop.
   */
  lemma {:induction false} LongWatermarkIsRunningMax(l: Ledger, prices: seq<real>)
    requires l.position.Some? && l.position.value.direction == LONG
    ensures TrailAll(l, prices).position.Some?
    ensures TrailAll(l, prices).position.value.highest == RunningMax(l.position.value.highest, prices)
    ensures TrailAll(l, prices).position.value == l.position.value.(highest := TrailAll(l, prices).position.value.highest,
                                                                      trailingStop := TrailAll(l, prices).position.value.trailingStop)
    ensures TrailAll(l, prices).balance == l.balance && TrailAll(l, prices).trades == l.trades
    decreases |prices|
  {
    if prices != [] {
      var l1 := TrailingSpec(l, prices[0]).1;
      assert l1.position.value.highest == Max(l.position.value.highest, prices[0]);
      LongWatermarkIsRunningMax(l1, prices[1..]);
    }
  }

  /** The lower of a watermark (`None` standing for infinity) and a price. */
  function Lower(lo: Option<real>, price: real): real
  {
    if lo.None? || price < lo.value then price else lo.value
  }

  /** The smallest of `lo` and all of `prices`, `None` (infinity) while nothing has been seen. */
  function RunningMin(lo: Option<real>, prices: seq<real>): (r: Option<real>)
    ensures prices != [] ==> r.Some?
    ensures r.Some? ==> (lo.Some? ==> r.value <= lo.value) && forall i :: 0 <= i < |prices| ==> r.value <= prices[i]
    decreases |prices|
  {
    if prices == [] then lo else RunningMin(Some(Lower(lo, prices[0])), prices[1..])
  }

  /**
   * Over any sequence of prices, a non-LONG position's low watermark is the lowest price seen
   * (or its entry watermark), and the position is otherwise unchanged apart from the stop.
   */
  lemma {:induction false} ShortWatermarkIsRunningMin(l: Ledger, prices: seq<real>)
    requires l.position.Some? && l.position.value.direction != LONG
    ensures TrailAll(l, prices).position.Some?
    ensures TrailAll(l, prices).position.value.lowest == RunningMin(l.position.value.lowest, prices)
    ensures TrailAll(l, prices).position.value == l.position.value.(lowest := TrailAll(l, prices).position.value.lowest,
                                                                      trailingStop := TrailAll(l, prices).position.value.trailingStop)
    ensures TrailAll(l, prices).balance == l.balance && TrailAll(l, prices).trades == l.trades
    decreases |prices|
  {
    if prices != [] {
      var l1 := TrailingSpec(l, prices[0]).1;
      assert l1.position.value.lowest == Some(Lower(l.position.value.lowest, prices[0]));
      ShortWatermarkIsRunningMin(l1, prices[1..]);
    }
  }

  /** Once half has been taken, the partial take-profit tag is never raised again. */
  lemma PartialTakeProfitOnce(l: Ledger, price: real, later: real)
    requires PartialTakeProfitSpec(l, price).0.Some?
    ensures var after := PartialTakeProfitSpec(l, price).1;
      SignalsSpec(after, later).Some? ==> PARTIAL_TAKE_PROFIT !in SignalsSpec(after, later).value
  {
    var after := PartialTakeProfitSpec(l, price).1;
    var p := after.position.value;
    if WholeMetrics(p, later).Some? {
      var t1 := if TargetHit(p, later) then [TARGET_REACHED] else [];
      var t2 := if StopHit(p, later) then [TRAILING_STOP] else [];
      assert SignalsSpec(after, later).value == t1 + t2;
    }
  }
}
