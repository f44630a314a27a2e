/** Properties of the virtual portfolio's bookkeeping. */
module LedgerFacts {
  import opened Wrappers
  import opened Config
  import opened TradeLog
  import opened Ledger

  /** Selling `ratio` of a position attributes exactly `ratio` of its investment. */
  lemma ShareOfRatio(p: Position, ratio: real)
    requires p.size != 0.0
    ensures InvestedShare(p, p.size * ratio) == p.invested * ratio
  {
    assert p.size * ratio / p.size == ratio;
  }

  /** The whole position carries the whole investment. */
  lemma WholeShare(p: Position)
    requires p.size != 0.0
    ensures InvestedShare(p, p.size) == p.invested
  {
    assert p.size / p.size == 1.0;
  }

  /** A successful exit is the ledger `ExitLedger` describes. */
  lemma ExitShape(l: Ledger, price: real, reason: string, ratio: real)
    requires l.position.Some? && ExitMetrics(l.position.value, price, ratio).Some?
    requires ExitInvested(l.position.value, ratio) != 0.0
    ensures ExitSpec(l, price, reason, ratio).1
         == ExitLedger(l, l.position.value, price, reason, ratio, ExitMetrics(l.position.value, price, ratio).value)
    ensures ExitSpec(l, price, reason, ratio).0
         == Some(ExitInfoOf(l.position.value, price, reason, ratio, ExitMetrics(l.position.value, price, ratio).value))
  {
  }

  /** An exit whose metrics divide by zero changes nothing. */
  lemma ExitRaisesEarly(l: Ledger, price: real, reason: string, ratio: real)
    requires l.position.Some? && ExitMetrics(l.position.value, price, ratio).None?
    ensures ExitSpec(l, price, reason, ratio) == (None, l)
  {
  }

  /** An exit whose investment share is zero raises after crediting the (zero) proceeds. */
  lemma ExitRaisesLate(l: Ledger, price: real, reason: string, ratio: real)
    requires l.position.Some? && ExitMetrics(l.position.value, price, ratio).Some?
    requires ExitInvested(l.position.value, ratio) == 0.0
    ensures ExitSpec(l, price, reason, ratio)
         == (None, l.(balance := l.balance + Proceeds(ExitMetrics(l.position.value, price, ratio).value)))
  {
  }

  /** When an exit succeeds, none of the source's divisions by zero was reached. */
  lemma ExitSucceeded(l: Ledger, price: real, reason: string, ratio: real)
    requires ExitSpec(l, price, reason, ratio).0.Some?
    ensures l.position.Some? && ExitMetrics(l.position.value, price, ratio).Some?
    ensures ExitInvested(l.position.value, ratio) != 0.0
  {
  }

  /**
   * An exit that returns nothing leaves the ledger exactly as it was: the balance credit
   * made before the late division by zero is itself zero.
   */
  lemma ExitFailureKeepsLedger(l: Ledger, price: real, reason: string, ratio: real)
    ensures ExitSpec(l, price, reason, ratio).0.None? ==> ExitSpec(l, price, reason, ratio).1 == l
  {
    if l.position.Some? && ExitMetrics(l.position.value, price, ratio).Some? {
      var p := l.position.value;
      ShareOfRatio(p, ratio);
      if ExitInvested(p, ratio) == 0.0 {
        assert ExitMetrics(p, price, ratio).value.value == 0.0;
      }
    }
  }

  /**
   * Exit accounting: the balance grows by the investment share returned plus the realized
   * PnL, where the realized PnL is the position's PnL net of the exit fee.
   */
  lemma ExitAccounting(l: Ledger, price: real, reason: string, ratio: real)
    requires ExitSpec(l, price, reason, ratio).0.Some?
    ensures ExitSpec(l, price, reason, ratio).1.balance
         == l.balance + l.position.value.invested * ratio + ExitSpec(l, price, reason, ratio).0.value.realizedPnl
    ensures ExitSpec(l, price, reason, ratio).0.value.invested == l.position.value.invested * ratio
  {
    ExitSucceeded(l, price, reason, ratio);
    ExitShape(l, price, reason, ratio);
    var p := l.position.value;
    PiecesAccounting(l, p, price, reason, ratio, ExitMetrics(p, price, ratio).value);
  }

  lemma PiecesAccounting(l: Ledger, p: Position, price: real, reason: string, ratio: real, m: PositionMetrics)
    requires p.size != 0.0 && ExitInvested(p, ratio) != 0.0
    requires ExitMetrics(p, price, ratio) == Some(m)
    ensures ExitLedger(l, p, price, reason, ratio, m).balance
         == l.balance + p.invested * ratio + ExitInfoOf(p, price, reason, ratio, m).realizedPnl
  {
    assert InvestedShare(p, p.size * ratio) == p.invested * ratio by {
      ShareOfRatio(p, ratio);
    }
    assert m.pnl == m.value - p.invested * ratio;
    assert ExitInfoOf(p, price, reason, ratio, m).realizedPnl == m.pnl - ExitFee(m);
  }

  /** The exit fee is charged on the value sold and added to the fees paid over the position's life. */
  lemma ExitFees(l: Ledger, price: real, reason: string, ratio: real)
    requires ExitSpec(l, price, reason, ratio).0.Some?
    ensures ExitSpec(l, price, reason, ratio).0.value.exitFee
         == FEE_RATE * ExitMetrics(l.position.value, price, ratio).value.value
    ensures ExitSpec(l, price, reason, ratio).0.value.totalFees
         == l.position.value.totalFees + ExitSpec(l, price, reason, ratio).0.value.exitFee
  {
    ExitSucceeded(l, price, reason, ratio);
    ExitShape(l, price, reason, ratio);
  }

  /** A successful exit logs exactly one EXIT row carrying its realized PnL and reason. */
  lemma ExitLogsOneRow(l: Ledger, price: real, reason: string, ratio: real)
    requires ExitSpec(l, price, reason, ratio).0.Some?
    ensures var res := ExitSpec(l, price, reason, ratio);
      |res.1.trades| == |l.trades| + 1 && res.1.trades[..|l.trades|] == l.trades
      && res.1.trades[|l.trades|].action == "EXIT"
      && res.1.trades[|l.trades|].realizedPnl == res.0.value.realizedPnl
      && res.1.trades[|l.trades|].exitReason == Some(reason)
      && res.1.trades[|l.trades|].symbol == l.position.value.symbol
  {
    ExitSucceeded(l, price, reason, ratio);
    ExitShape(l, price, reason, ratio);
    var res := ExitSpec(l, price, reason, ratio);
    assert res.1.trades[..|l.trades|] == l.trades;
  }

  /** After a partial exit, the remaining position keeps `1 - ratio` of its size and investment. */
  lemma PartialExitKeepsRemainder(l: Ledger, price: real, reason: string, ratio: real)
    requires ExitSpec(l, price, reason, ratio).0.Some? && ratio < 1.0
    ensures var p := l.position.value;
      var q := ExitSpec(l, price, reason, ratio).1.position.value;
      q.size == p.size * (1.0 - ratio) && q.invested == p.invested * (1.0 - ratio)
      && q.symbol == p.symbol && q.direction == p.direction && q.entryPrice == p.entryPrice
      && q.partialTaken == (p.partialTaken || reason == PARTIAL_REASON)
  {
  }

  /** Entering the side already held on the same symbol is refused without any change. */
  lemma SameSideRefused(l: Ledger, symbol: string, direction: string, price: real, leverage: real,
                        target: Option<real>, stop: Option<real>, now: int)
    requires l.position.Some? && l.position.value.symbol == NormalizeSymbol(symbol)
    requires l.position.value.direction == direction
    ensures EnterSpec(l, symbol, direction, price, leverage, target, stop, now, false) == (false, l)
  {
  }

  /**
   * A flip is a full exit followed by an opening of the new side on the same symbol;
   * if the exit fails, nothing is entered.
   */
  lemma FlipIsExitThenOpen(l: Ledger, symbol: string, direction: string, price: real, leverage: real,
                           target: Option<real>, stop: Option<real>, now: int)
    requires ValidLedger(l) && l.position.Some? && l.position.value.symbol == NormalizeSymbol(symbol)
    requires l.position.value.direction != direction
    ensures var ex := ExitSpec(l, price, "Position Flip", 1.0);
      EnterSpec(l, symbol, direction, price, leverage, target, stop, now, false)
        == if ex.0.None? then (false, ex.1)
           else OpenSpec(ex.1, l.position.value.symbol, direction, price, leverage, target, stop, now)
  {
    var ex := ExitSpec(l, price, "Position Flip", 1.0);
    if ex.0.Some? {
      assert ex.1.position.None?;
      NormalFormIsFixed(l.position.value.symbol);
    }
  }

  /**
   * Switching symbols closes the old position first and then opens the new one; when the
   * new entry is refused the old position stays closed.
   */
  lemma SwitchClosesFirst(l: Ledger, symbol: string, direction: string, price: real, leverage: real,
                          target: Option<real>, stop: Option<real>, now: int)
    requires l.position.Some? && l.position.value.symbol != NormalizeSymbol(symbol)
    requires ExitSpec(l, price, "Position Switch", 1.0).0.Some?
    ensures var res := EnterSpec(l, symbol, direction, price, leverage, target, stop, now, false);
      var closed := ExitSpec(l, price, "Position Switch", 1.0).1;
      closed.position.None?
      && res == OpenSpec(closed, NormalizeSymbol(symbol), direction, price, leverage, target, stop, now)
      && (!res.0 ==> res.1.position.None?)
  {
  }

  /**
   * With `force` (the source's `force_flip`) an open position is replaced without being
   * closed: no EXIT row is logged and its investment is not returned to the balance.
   */
  lemma ForcedEntryDropsPosition(l: Ledger, symbol: string, direction: string, price: real, leverage: real,
                                 target: Option<real>, stop: Option<real>, now: int)
    requires l.position.Some?
    requires EnterSpec(l, symbol, direction, price, leverage, target, stop, now, true).0
    ensures var l1 := EnterSpec(l, symbol, direction, price, leverage, target, stop, now, true).1;
      l1.balance + l1.position.value.invested + l1.position.value.entryFee == l.balance
      && |l1.trades| == |l.trades| + 1 && l1.trades[|l.trades|].action == "ENTER"
  {
  }

  /** Below the minimum balance nothing can be entered. */
  lemma LowBalanceBlocksEntry(l: Ledger, symbol: string, direction: string, price: real, leverage: real,
                              target: Option<real>, stop: Option<real>, now: int, force: bool)
    requires l.position.None? && l.balance < MIN_BALANCE
    ensures EnterSpec(l, symbol, direction, price, leverage, target, stop, now, force) == (false, l)
  {
  }

  /** Opening and immediately closing at the same quoted price always loses money (fees and slippage). */
  lemma RoundTripLoses(l: Ledger, sym: string, direction: string, price: real, leverage: real,
                       target: Option<real>, stop: Option<real>, now: int)
    requires l.position.None? && price > 0.0 && leverage >= 0.0
    requires OpenSpec(l, sym, direction, price, leverage, target, stop, now).0
    ensures var entered := OpenSpec(l, sym, direction, price, leverage, target, stop, now).1;
      ExitSpec(entered, price, "Manual", 1.0).1.balance < l.balance
  {
    var entered := OpenSpec(l, sym, direction, price, leverage, target, stop, now).1;
    var p := entered.position.value;
    assert entered.balance == 0.05 * l.balance;
    assert p.invested == ENTRY_SHARE * l.balance * (1.0 - FEE_RATE);
    ExitAtQuoteReturnsAtMost(entered, price);
  }

  /**
   * Closing at the quote a position was entered at returns at most its investment: the
   * entry fill was slipped above the quote for a LONG (below for a SHORT) and the exit fill
   * is slipped the other way, so the change rate is negative.
   */
  lemma ExitAtQuoteReturnsAtMost(entered: Ledger, price: real)
    requires entered.position.Some? && price > 0.0
    requires var p := entered.position.value;
      p.entryPrice == Slippage(price, p.direction, Enter) && p.invested > 0.0 && p.leverage >= 0.0
    ensures ExitSpec(entered, price, "Manual", 1.0).1.balance <= entered.balance + entered.position.value.invested
  {
    var p := entered.position.value;
    var ex := ExitSpec(entered, price, "Manual", 1.0);
    ExitFailureKeepsLedger(entered, price, "Manual", 1.0);
    if ex.0.Some? {
      var fill := Slippage(price, p.direction, Exit);
      // Entry and exit fills sit on opposite sides of the quote, against the trader.
      assert p.direction == LONG ==> fill < price < p.entryPrice;
      assert p.direction != LONG ==> p.entryPrice < price < fill;
      var rate := ChangeRate(p.direction, p.entryPrice, fill);
      LosingRate(p.direction, p.entryPrice, fill);
      ShareOfRatio(p, 1.0);
      var m := Metrics(p, fill, p.size * 1.0).value;
      MetricsValue(p, fill, p.size * 1.0);
      assert InvestedShare(p, p.size * 1.0) == p.invested;
      ValueMonotone(p.invested, rate, 0.0, p.leverage);
      assert m.value <= p.invested;
      ExitAccounting(entered, price, "Manual", 1.0);
    }
  }

  /** The value the metrics report is the leveraged value of the invested share. */
  lemma MetricsValue(p: Position, price: real, size: real)
    requires p.size != 0.0 && p.entryPrice != 0.0
    ensures Metrics(p, price, size).value.value
            == LeveragedValue(InvestedShare(p, size), ChangeRate(p.direction, p.entryPrice, price), p.leverage)
  {
  }

  /** A fill on the wrong side of the entry is a negative change rate. */
  lemma LosingRate(direction: string, entry: real, fill: real)
    requires entry > 0.0
    requires direction == LONG ==> fill < entry
    requires direction != LONG ==> entry < fill
    ensures ChangeRate(direction, entry, fill) < 0.0
  {
    if direction == LONG {
      assert (fill - entry) / entry < 0.0;
    } else {
      assert (entry - fill) / entry < 0.0;
    }
  }

  /** Metrics of a position valued at its own entry price: no gain, no loss. */
  lemma MetricsAtEntry(p: Position, size: real)
    requires p.size != 0.0 && p.entryPrice != 0.0 && InvestedShare(p, size) >= 0.0
    ensures Metrics(p, p.entryPrice, size).value.pnl == 0.0
    ensures Metrics(p, p.entryPrice, size).value.pct == 0.0
  {
  }

  /** Without a stored quote the summary values the position at its entry price, so shows no PnL. */
  lemma SummaryWithoutQuote(l: Ledger)
    requires ValidLedger(l) && l.position.Some? && l.position.value.size != 0.0
    ensures PositionSummary(l, None).Some?
    ensures PositionSummary(l, None).value.pnl == 0.0
  {
    WholeShare(l.position.value);
    MetricsAtEntry(l.position.value, l.position.value.size);
  }

  /** A LONG position gains (weakly) as the price rises; every other direction as it falls. */
  lemma MetricsMonotone(p: Position, size: real, lo: real, hi: real)
    requires p.size != 0.0 && p.entryPrice > 0.0 && p.leverage >= 0.0 && InvestedShare(p, size) >= 0.0
    requires lo <= hi
    ensures p.direction == LONG ==> Metrics(p, lo, size).value.pnl <= Metrics(p, hi, size).value.pnl
    ensures p.direction != LONG ==> Metrics(p, hi, size).value.pnl <= Metrics(p, lo, size).value.pnl
  {
    var inv := InvestedShare(p, size);
    var e := p.entryPrice;
    var rLo := ChangeRate(p.direction, e, lo);
    var rHi := ChangeRate(p.direction, e, hi);
    if p.direction == LONG {
      assert (lo - e) / e <= (hi - e) / e;
      ValueMonotone(inv, rLo, rHi, p.leverage);
    } else {
      assert (e - hi) / e <= (e - lo) / e;
      ValueMonotone(inv, rHi, rLo, p.leverage);
    }
  }

  lemma ValueMonotone(inv: real, r1: real, r2: real, leverage: real)
    requires inv >= 0.0 && leverage >= 0.0 && r1 <= r2
    ensures LeveragedValue(inv, r1, leverage) <= LeveragedValue(inv, r2, leverage)
  {
    assert r1 * leverage <= r2 * leverage;
    var raw1 := inv * (1.0 + r1 * leverage);
    var raw2 := inv * (1.0 + r2 * leverage);
    assert raw1 <= raw2;
    assert LeveragedValue(inv, r1, leverage) == if raw1 >= FLOOR_SHARE * inv then raw1 else FLOOR_SHARE * inv;
    assert LeveragedValue(inv, r2, leverage) == if raw2 >= FLOOR_SHARE * inv then raw2 else FLOOR_SHARE * inv;
  }
}
