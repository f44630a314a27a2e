/**
 * The signal-based scheduler's own rules: how a past analysis is judged against the
 * current price, how detected signals are scored and summarised, and what the reset
 * and manual-flip endpoints do to the portfolio.
 */
module Scheduler {
  import opened Wrappers
  import opened Config
  import opened Ledger
  import opened Signals
  import LedgerFacts
  import LedgerInvariant
  import Portfolio

  // ---------------------------------------------------------------- verification

  /** The verdict strings "성공" (success) and "실패" (failure). */
  datatype Verdict = SUCCESS | FAILURE

  function Abs(x: real): (r: real)
    ensures r >= 0.0 && (r == x || r == -x)
  {
    if x < 0.0 then -x else x
  }

  /**
   * `_determine_verification_result`. For HOLD the move is taken relative to the
   * original price; a zero original price raises, which counts as a failure.
   */
  function VerificationResult(recommendation: string, original: real, current: real, target: real, stop: real)
    : (v: Verdict)
    ensures recommendation == "BUY" ==>
      (v == SUCCESS <==> current >= target || (current > stop && current > original))
    ensures recommendation == "SELL" ==>
      (v == SUCCESS <==> current <= target || (current < stop && current < original))
    ensures recommendation == "HOLD" ==>
      (v == SUCCESS <==> original != 0.0 && Abs(current - original) * 100.0 <= 2.0 * Abs(original))
    ensures recommendation !in {"BUY", "SELL", "HOLD"} ==> v == FAILURE
  {
    if recommendation == "BUY" then
      if current >= target then SUCCESS
      else if current <= stop then FAILURE
      else if current > original then SUCCESS else FAILURE
    else if recommendation == "SELL" then
      if current <= target then SUCCESS
      else if current >= stop then FAILURE
      else if current < original then SUCCESS else FAILURE
    else if recommendation == "HOLD" then
      if original == 0.0 then FAILURE
      else
        var pct := Abs((current - original) / original) * 100.0;
        HoldWithinBand(current - original, original);
        if pct <= 2.0 then SUCCESS else FAILURE
    else FAILURE
  }

  lemma HoldWithinBand(d: real, o: real)
    requires o != 0.0
    ensures Abs(d / o) * 100.0 <= 2.0 <==> Abs(d) * 100.0 <= 2.0 * Abs(o)
  {
    var q := d / o;
    assert d == q * o;
    assert Abs(d) == Abs(q) * Abs(o) by {
      if q >= 0.0 && o >= 0.0 { } else if q >= 0.0 { } else if o >= 0.0 { } else { }
    }
    var a := Abs(o);
    assert a > 0.0;
    assert Abs(d) * 100.0 == Abs(q) * a * 100.0;
    if Abs(q) * 100.0 <= 2.0 {
      assert Abs(q) * a * 100.0 <= 2.0 * a;
    } else {
      assert Abs(q) * a * 100.0 > 2.0 * a;
    }
  }

  /** SELL is BUY seen in a mirror: negating every price turns one rule into the other. */
  lemma SellMirrorsBuy(original: real, current: real, target: real, stop: real)
    ensures VerificationResult("SELL", original, current, target, stop)
         == VerificationResult("BUY", -original, -current, -target, -stop)
  {
  }

  // ---------------------------------------------------------------- signal scoring

  /** `_get_signal_priority_score`: strength score times the signal's priority. */
  function PriorityScore(s: Signal): (n: int)
    ensures s.priority >= 0 ==> s.priority <= n <= 4 * s.priority
    ensures s.priority > 0 ==> (n == 4 * s.priority <==> s.strength == VERY_HIGH)
  {
    StrengthScore(s.strength) * s.priority
  }

  /**
   * `max(signals, key=_get_signal_priority_score)`: the index of the first signal with
   * the highest score.
   */
  function Strongest(sigs: seq<Signal>): (k: nat)
    requires sigs != []
    ensures k < |sigs|
    ensures forall j :: 0 <= j < |sigs| ==> PriorityScore(sigs[j]) <= PriorityScore(sigs[k])
    ensures forall j :: 0 <= j < k ==> PriorityScore(sigs[j]) < PriorityScore(sigs[k])
  {
    if |sigs| == 1 then 0
    else
      var b := Strongest(sigs[..|sigs| - 1]);
      assert forall j :: 0 <= j < |sigs| - 1 ==> sigs[..|sigs| - 1][j] == sigs[j];
      if PriorityScore(sigs[|sigs| - 1]) > PriorityScore(sigs[b]) then |sigs| - 1 else b
  }

  datatype Bias = BULLISH | BEARISH | NEUTRAL

  function DirectionCount(sigs: seq<Signal>, direction: string): (n: nat)
    ensures n <= |sigs|
  {
    if sigs == [] then 0
    else DirectionCount(sigs[..|sigs| - 1], direction) + (if sigs[|sigs| - 1].direction == direction then 1 else 0)
  }

  /** The direction part of `_create_signal_context`. */
  function DirectionBias(sigs: seq<Signal>): (b: Bias)
    ensures b == BULLISH <==> DirectionCount(sigs, BUY) > DirectionCount(sigs, SELL)
    ensures b == BEARISH <==> DirectionCount(sigs, SELL) > DirectionCount(sigs, BUY)
    ensures b == NEUTRAL <==> DirectionCount(sigs, BUY) == DirectionCount(sigs, SELL)
  {
    var buys := DirectionCount(sigs, BUY);
    var sells := DirectionCount(sigs, SELL);
    if buys > sells then BULLISH else if sells > buys then BEARISH else NEUTRAL
  }

  /** BUY and SELL exchanged. */
  function Mirror(sigs: seq<Signal>): (r: seq<Signal>)
    ensures |r| == |sigs|
  {
    if sigs == [] then []
    else
      var s := sigs[|sigs| - 1];
      var d := if s.direction == BUY then SELL else if s.direction == SELL then BUY else s.direction;
      Mirror(sigs[..|sigs| - 1]) + [s.(direction := d)]
  }

  lemma {:induction false} MirrorSwapsCounts(sigs: seq<Signal>)
    ensures DirectionCount(Mirror(sigs), BUY) == DirectionCount(sigs, SELL)
    ensures DirectionCount(Mirror(sigs), SELL) == DirectionCount(sigs, BUY)
  {
    if sigs != [] {
      MirrorSwapsCounts(sigs[..|sigs| - 1]);
      var m := Mirror(sigs);
      assert m[..|m| - 1] == Mirror(sigs[..|sigs| - 1]);
    }
  }

  /** Exchanging BUY and SELL exchanges bullish and bearish bias. */
  lemma BiasMirrors(sigs: seq<Signal>)
    ensures DirectionBias(Mirror(sigs)) == match DirectionBias(sigs)
      case BULLISH => BEARISH
      case BEARISH => BULLISH
      case NEUTRAL => NEUTRAL
  {
    MirrorSwapsCounts(sigs);
  }

  // ---------------------------------------------------------------- endpoints

  const RESET_REASON: string := "Portfolio Reset"

  /**
   * The ledger effect of `reset_portfolio`: close any open position at its symbol's
   * stored price (or its entry price when none is stored), then restore the starting
   * balance and drop the position, whatever the exit did.
   */
  function ResetSpec(l: Ledger, initial: real, quote: Option<real>): (l1: Ledger)
    ensures l1.balance == initial && l1.position.None?
    ensures l.position.None? ==> l1.trades == l.trades
    ensures |l.trades| <= |l1.trades| <= |l.trades| + 1 && l1.trades[..|l.trades|] == l.trades
  {
    if l.position.None? then Ledger(initial, None, l.trades)
    else
      var price := quote.GetOr(l.position.value.entryPrice);
      var ex := ExitSpec(l, price, RESET_REASON, 1.0);
      ExitAppendsAtMostOne(l, price, RESET_REASON);
      Ledger(initial, None, ex.1.trades)
  }

  lemma ExitAppendsAtMostOne(l: Ledger, price: real, reason: string)
    ensures var t := ExitSpec(l, price, reason, 1.0).1.trades;
      |l.trades| <= |t| <= |l.trades| + 1 && t[..|l.trades|] == l.trades
  {
    LedgerFacts.ExitFailureKeepsLedger(l, price, reason, 1.0);
    if ExitSpec(l, price, reason, 1.0).0.Some? {
      LedgerFacts.ExitLogsOneRow(l, price, reason, 1.0);
    }
  }

  /** A reset logs the closing EXIT row exactly when the close succeeded. */
  lemma ResetLogsExit(l: Ledger, initial: real, quote: Option<real>)
    requires l.position.Some?
    ensures var price := quote.GetOr(l.position.value.entryPrice);
      var ex := ExitSpec(l, price, RESET_REASON, 1.0);
      (ex.0.Some? ==> ResetSpec(l, initial, quote).trades == l.trades + [ExitRow(l.position.value, price, RESET_REASON, 1.0, ExitMetrics(l.position.value, price, 1.0).value)])
      && (ex.0.None? ==> ResetSpec(l, initial, quote).trades == l.trades)
  {
    var price := quote.GetOr(l.position.value.entryPrice);
    LedgerFacts.ExitFailureKeepsLedger(l, price, RESET_REASON, 1.0);
    var ex := ExitSpec(l, price, RESET_REASON, 1.0);
    if ex.0.Some? {
      LedgerFacts.ExitSucceeded(l, price, RESET_REASON, 1.0);
      LedgerFacts.ExitShape(l, price, RESET_REASON, 1.0);
    }
  }

  /** `reset_portfolio`, with the stored price of the open position's symbol as `quote`. */
  method ResetPortfolio(portfolio: Portfolio.VirtualPortfolio, quote: Option<real>)
    modifies portfolio, portfolio.db
    ensures portfolio.State() == ResetSpec(old(portfolio.State()), portfolio.initialBalance, quote)
    ensures portfolio.initialBalance >= 0.0 ==> portfolio.Valid()
  {
    if portfolio.position.Some? {
      var price := quote.GetOr(portfolio.position.value.entryPrice);
      var _ := portfolio.ExitPosition(price, RESET_REASON, 1.0);
    }
    portfolio.balance := portfolio.initialBalance;
    portfolio.position := None;
  }

  /** The reply of `manual_position_flip`: success, HTTP 400, 404 or 500. */
  datatype FlipReply = Flipped | BadDirection | NoQuote | FlipFailed

  /**
   * `manual_position_flip`: the direction must be LONG or SHORT and the normalized
   * symbol must have a stored price; then `enter_position` runs with `force_flip`.
   * The success reply carries `get_position_summary()`, which raises (HTTP 500) when the
   * new position's metrics divide by zero; the entry has happened by then.
   */
  function ManualFlipSpec(l: Ledger, symbol: string, direction: string, leverage: real, quote: Option<real>, now: int)
    : (res: (FlipReply, Ledger))
    ensures res.0 != Flipped ==> res.1 == l || res.0 == FlipFailed
    ensures res.0 in {BadDirection, NoQuote} ==> res.1 == l
    ensures res.0 == BadDirection <==> direction != LONG && direction != SHORT
    ensures res.0 == NoQuote <==> (direction == LONG || direction == SHORT) && quote.None?
    ensures (direction == LONG || direction == SHORT) && quote.Some? ==>
      var en := EnterSpec(l, NormalizeSymbol(symbol), direction, quote.value, leverage, None, None, now, true);
      res.1 == en.1 && (res.0 == Flipped <==> en.0 && PositionSummary(en.1, quote).Some?)
  {
    if direction != LONG && direction != SHORT then (BadDirection, l)
    else if quote.None? then (NoQuote, l)
    else
      var en := EnterSpec(l, NormalizeSymbol(symbol), direction, quote.value, leverage, None, None, now, true);
      if !en.0 then (FlipFailed, en.1)
      else if PositionSummary(en.1, quote).None? then (FlipFailed, en.1)
      else (Flipped, en.1)
  }

  /**
   * Once the forced entry succeeds, the reply depends on the leverage alone: a zero leverage
   * sizes the new position at zero, the summary divides by that size, and the reply is 500.
   */
  lemma FlipReplyFollowsLeverage(l: Ledger, symbol: string, direction: string, leverage: real, quote: Option<real>, now: int)
    requires direction == LONG || direction == SHORT
    requires quote.Some?
    requires EnterSpec(l, NormalizeSymbol(symbol), direction, quote.value, leverage, None, None, now, true).0
    ensures ManualFlipSpec(l, symbol, direction, leverage, quote, now).0 == Flipped <==> leverage != 0.0
  {
    var en := EnterSpec(l, NormalizeSymbol(symbol), direction, quote.value, leverage, None, None, now, true);
    var p := en.1.position.value;
    assert p.entryPrice != 0.0;
    assert PositionSummary(en.1, quote).None? <==> p.size == 0.0;
  }

  /**
   * A manual flip on an open position replaces it without closing it: the old
   * position's investment is not credited back and no EXIT row is logged, so the
   * capital it held is gone.
   */
  lemma ManualFlipDropsPosition(l: Ledger, symbol: string, direction: string, leverage: real, quote: Option<real>, now: int)
    requires l.position.Some?
    requires ManualFlipSpec(l, symbol, direction, leverage, quote, now).0 == Flipped
    ensures var l1 := ManualFlipSpec(l, symbol, direction, leverage, quote, now).1;
      l1.balance + l1.position.value.invested + l1.position.value.entryFee == l.balance
      && |l1.trades| == |l.trades| + 1 && l1.trades[|l.trades|].action == "ENTER"
  {
    LedgerFacts.ForcedEntryDropsPosition(l, NormalizeSymbol(symbol), direction, quote.value, leverage, None, None, now);
  }

  /** `manual_position_flip` on the shared portfolio, with the stored price of the normalized symbol as `quote`. */
  method ManualPositionFlip(portfolio: Portfolio.VirtualPortfolio, symbol: string, direction: string, leverage: real,
                            quote: Option<real>, now: int)
    returns (reply: FlipReply)
    requires portfolio.Valid()
    modifies portfolio, portfolio.db
    ensures (reply, portfolio.State()) == ManualFlipSpec(old(portfolio.State()), symbol, direction, leverage, quote, now)
    ensures portfolio.Valid()
  {
    if direction != LONG && direction != SHORT {
      return BadDirection;
    }
    if quote.None? {
      return NoQuote;
    }
    var ok := portfolio.EnterPosition(NormalizeSymbol(symbol), direction, quote.value, leverage, None, None, now, true);
    if !ok || PositionSummary(portfolio.State(), quote).None? {
      return FlipFailed;
    }
    reply := Flipped;
  }
}
