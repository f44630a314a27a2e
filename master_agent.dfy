/**
 * The master agent's side of a trading decision: the defaults and the leverage clamp
 * applied to the AI's answer, and the dispatch of ENTER / EXIT / HOLD onto the portfolio.
 * The AI call itself is not modelled; its parsed answer is an input.
 */
module MasterAgent {
  import opened Wrappers
  import opened Ledger
  import LedgerFacts
  import LedgerInvariant
  import Portfolio

  const EXIT_REASON: string := "Master Agent Decision"
  const SWITCH_REASON: string := "Symbol Switch"

  // ---------------------------------------------------------------- defaults

  /** The fields of the AI's parsed JSON answer that the agent reads, `None` when absent. */
  datatype AiAnswer = AiAnswer(tradingDecision: Option<string>, confidence: Option<real>, leverage: Option<real>)

  /** The answer after the defaults; `leverage` stays absent only in the parse-failure fallback. */
  datatype Filled = Filled(tradingDecision: string, confidence: real, leverage: Option<real>, parseFailed: bool)

  /** `max(1.0, min(10.0, leverage))` */
  function ClampLeverage(x: real): (r: real)
    ensures 1.0 <= r <= 10.0
    ensures 1.0 <= x <= 10.0 ==> r == x
    ensures x < 1.0 ==> r == 1.0
    ensures x > 10.0 ==> r == 10.0
  {
    if x < 1.0 then 1.0 else if x > 10.0 then 10.0 else x
  }

  /**
   * The defaults of `_call_master_ai`: a missing decision is HOLD, a missing confidence
   * 0.5, a missing leverage 1.0, and the leverage is clamped into [1, 10]. An answer that
   * is not JSON (`None`) becomes the HOLD fallback with confidence 0.3.
   */
  function FillDefaults(parsed: Option<AiAnswer>): (f: Filled)
    ensures parsed.None? ==> f == Filled("HOLD", 0.3, None, true)
    ensures parsed.Some? ==> !f.parseFailed && f.leverage.Some? && 1.0 <= f.leverage.value <= 10.0
    ensures parsed.Some? ==> f.tradingDecision == parsed.value.tradingDecision.GetOr("HOLD")
    ensures parsed.Some? ==> f.confidence == parsed.value.confidence.GetOr(0.5)
    ensures parsed.Some? ==> f.leverage == Some(ClampLeverage(parsed.value.leverage.GetOr(1.0)))
    ensures parsed.Some? && parsed.value.leverage.None? ==> f.leverage == Some(1.0)
    ensures parsed.Some? && parsed.value.leverage.Some? && 1.0 <= parsed.value.leverage.value <= 10.0
            ==> f.leverage == parsed.value.leverage
  {
    match parsed
    case None => Filled("HOLD", 0.3, None, true)
    case Some(a) =>
      Filled(a.tradingDecision.GetOr("HOLD"), a.confidence.GetOr(0.5),
             Some(ClampLeverage(a.leverage.GetOr(1.0))), false)
  }

  // ---------------------------------------------------------------- dispatch

  /** The decision dictionary `_execute_trading_decision` reads, `None` for an absent key. */
  datatype Order = Order(
    decision: Option<string>,
    symbol: Option<string>,
    price: Option<real>,
    direction: Option<string>,
    leverage: Option<real>,
    target: Option<real>,
    stop: Option<real>)

  /** The `action` of the returned dictionary. */
  datatype Act = EXIT | ENTER | POSITION_FLIP | SYMBOL_SWITCH | HOLD | ERROR

  datatype Outcome = Outcome(action: Act, success: bool)

  function DecisionOf(o: Order): string { o.decision.GetOr("HOLD") }
  function SymbolOf(o: Order): string { o.symbol.GetOr("UNKNOWN") }
  function PriceOf(o: Order): real { o.price.GetOr(0.0) }
  function DirectionOf(o: Order): string { o.direction.GetOr(LONG) }
  function LeverageOf(o: Order): real { o.leverage.GetOr(1.0) }

  /** `enter_position` with the order's fields. */
  function EnterWith(l: Ledger, o: Order, now: int): (bool, Ledger)
  {
    EnterSpec(l, SymbolOf(o), DirectionOf(o), PriceOf(o), LeverageOf(o), o.target, o.stop, now, false)
  }

  /**
   * `_execute_trading_decision` on the ledger `l` of a portfolio started with `initial`,
   * `quote` being the stored price of the open position's symbol. The status read first
   * (and, for HOLD, the summary) raise where their metrics do, which ends in ERROR.
   * The order's symbol is compared with the open one as given, before any normalisation.
   */
  function ExecuteSpec(l: Ledger, initial: real, o: Order, quote: Option<real>, now: int): (res: (Outcome, Ledger))
    ensures DecisionOf(o) != "ENTER" && DecisionOf(o) != "EXIT" ==> res.1 == l
    ensures res.0.action == ERROR ==> res == (Outcome(ERROR, false), l)
  {
    var price := PriceOf(o);
    if PortfolioStatus(initial, l, quote).None? then (Outcome(ERROR, false), l)
    else if DecisionOf(o) == "EXIT" then
      if l.position.Some? then
        var ex := ExitSpec(l, price, EXIT_REASON, 1.0);
        (Outcome(EXIT, ex.0.Some?), ex.1)
      else (Outcome(EXIT, false), l)
    else if DecisionOf(o) == "ENTER" then
      if l.position.Some? then
        var cur := l.position.value;
        if cur.symbol == SymbolOf(o) then
          if cur.direction == DirectionOf(o) then (Outcome(ENTER, false), l)
          else
            var en := EnterWith(l, o, now);
            (Outcome(POSITION_FLIP, en.0), en.1)
        else
          var ex := ExitSpec(l, price, SWITCH_REASON, 1.0);
          var en := EnterWith(ex.1, o, now);
          (Outcome(SYMBOL_SWITCH, en.0), en.1)
      else
        var en := EnterWith(l, o, now);
        (Outcome(ENTER, en.0), en.1)
    else if l.position.Some? && PositionSummary(l, quote).None? then (Outcome(ERROR, false), l)
    else (Outcome(HOLD, true), l)
  }

  /** EXIT with nothing open fails and leaves the ledger alone. */
  lemma ExitWithoutPositionFails(l: Ledger, initial: real, o: Order, quote: Option<real>, now: int)
    requires l.position.None? && DecisionOf(o) == "EXIT"
    ensures var res := ExecuteSpec(l, initial, o, quote, now);
      !res.0.success && res.1 == l && res.0.action in {EXIT, ERROR}
  {
  }

  /** EXIT with an open position is a full exit at the order's price. */
  lemma ExitIsFullExit(l: Ledger, initial: real, o: Order, quote: Option<real>, now: int)
    requires l.position.Some? && DecisionOf(o) == "EXIT"
    requires PortfolioStatus(initial, l, quote).Some?
    ensures var res := ExecuteSpec(l, initial, o, quote, now);
      var ex := ExitSpec(l, PriceOf(o), EXIT_REASON, 1.0);
      res == (Outcome(EXIT, ex.0.Some?), ex.1)
      && (res.0.success ==> res.1.position.None?)
  {
  }

  /** ENTER on the open symbol and side is refused, with no change. */
  lemma SameSideRejected(l: Ledger, initial: real, o: Order, quote: Option<real>, now: int)
    requires l.position.Some? && DecisionOf(o) == "ENTER"
    requires l.position.value.symbol == SymbolOf(o) && l.position.value.direction == DirectionOf(o)
    ensures var res := ExecuteSpec(l, initial, o, quote, now);
      !res.0.success && res.1 == l
  {
  }

  /**
   * ENTER on the open symbol with the other side is handed to `enter_position`, which
   * flips: the position is closed in full at the order's price before the new side opens.
   */
  lemma OppositeSideFlips(l: Ledger, initial: real, o: Order, quote: Option<real>, now: int)
    requires ValidLedger(l) && l.position.Some? && DecisionOf(o) == "ENTER"
    requires PortfolioStatus(initial, l, quote).Some?
    requires l.position.value.symbol == SymbolOf(o) && l.position.value.direction != DirectionOf(o)
    ensures var res := ExecuteSpec(l, initial, o, quote, now);
      res.0.action == POSITION_FLIP
      && res == (Outcome(POSITION_FLIP, FlipSpec(l, DirectionOf(o), PriceOf(o), LeverageOf(o), o.target, o.stop, now).0),
                 FlipSpec(l, DirectionOf(o), PriceOf(o), LeverageOf(o), o.target, o.stop, now).1)
  {
    EnterWithFlips(l, o, now);
  }

  lemma EnterWithFlips(l: Ledger, o: Order, now: int)
    requires ValidLedger(l) && l.position.Some?
    requires l.position.value.symbol == SymbolOf(o) && l.position.value.direction != DirectionOf(o)
    ensures EnterWith(l, o, now) == FlipSpec(l, DirectionOf(o), PriceOf(o), LeverageOf(o), o.target, o.stop, now)
  {
    Config.NormalFormIsFixed(l.position.value.symbol);
  }

  /**
   * ENTER on another symbol first closes the open position at the new symbol's price;
   * success reports only the entry, so a failed entry may still have closed the old
   * position.
   */
  lemma SwitchSuccessIsEntry(l: Ledger, initial: real, o: Order, quote: Option<real>, now: int)
    requires l.position.Some? && DecisionOf(o) == "ENTER" && l.position.value.symbol != SymbolOf(o)
    requires PortfolioStatus(initial, l, quote).Some?
    ensures var res := ExecuteSpec(l, initial, o, quote, now);
      var ex := ExitSpec(l, PriceOf(o), SWITCH_REASON, 1.0);
      res.0.action == SYMBOL_SWITCH
      && res.0.success == EnterWith(ex.1, o, now).0
      && (ex.0.Some? ==> ex.1.position.None?)
      && (ex.0.None? ==> ex.1 == l)
  {
    LedgerFacts.ExitFailureKeepsLedger(l, PriceOf(o), SWITCH_REASON, 1.0);
  }

  /** HOLD, or any other decision, never touches the ledger. */
  lemma HoldNeverMutates(l: Ledger, initial: real, o: Order, quote: Option<real>, now: int)
    requires DecisionOf(o) != "ENTER" && DecisionOf(o) != "EXIT"
    ensures var res := ExecuteSpec(l, initial, o, quote, now);
      res.1 == l && res.0.action in {HOLD, ERROR}
      && (res.0.success <==> res.0.action == HOLD)
  {
  }

  /** An order without a direction enters LONG. */
  lemma MissingDirectionIsLong(l: Ledger, initial: real, o: Order, quote: Option<real>, now: int)
    requires l.position.None? && DecisionOf(o) == "ENTER" && o.direction.None?
    requires PortfolioStatus(initial, l, quote).Some?
    ensures var res := ExecuteSpec(l, initial, o, quote, now);
      res.0.success ==> res.1.position.Some? && res.1.position.value.direction == LONG
  {
  }

  /** Dispatching a decision keeps the ledger invariant. */
  lemma ExecuteKeepsValid(l: Ledger, initial: real, o: Order, quote: Option<real>, now: int)
    requires ValidLedger(l)
    ensures ValidLedger(ExecuteSpec(l, initial, o, quote, now).1)
  {
    var price := PriceOf(o);
    LedgerInvariant.ExitKeepsValid(l, price, EXIT_REASON, 1.0);
    LedgerInvariant.ExitKeepsValid(l, price, SWITCH_REASON, 1.0);
    LedgerInvariant.EnterKeepsValid(l, SymbolOf(o), DirectionOf(o), price, LeverageOf(o), o.target, o.stop, now, false);
    var ex := ExitSpec(l, price, SWITCH_REASON, 1.0).1;
    LedgerInvariant.EnterKeepsValid(ex, SymbolOf(o), DirectionOf(o), price, LeverageOf(o), o.target, o.stop, now, false);
  }

  /** `_execute_trading_decision` on the shared portfolio object. */
  method ExecuteTradingDecision(portfolio: Portfolio.VirtualPortfolio, o: Order, quote: Option<real>, now: int)
    returns (out: Outcome)
    requires portfolio.Valid()
    modifies portfolio, portfolio.db
    ensures (out, portfolio.State()) == ExecuteSpec(old(portfolio.State()), portfolio.initialBalance, o, quote, now)
    ensures portfolio.Valid()
  {
    ghost var start := portfolio.State();
    ExecuteKeepsValid(start, portfolio.initialBalance, o, quote, now);
    var decision := o.decision.GetOr("HOLD");
    var symbol := o.symbol.GetOr("UNKNOWN");
    var price := o.price.GetOr(0.0);
    var direction := o.direction.GetOr(LONG);
    var leverage := o.leverage.GetOr(1.0);
    if PortfolioStatus(portfolio.initialBalance, portfolio.State(), quote).None? {
      return Outcome(ERROR, false);
    }
    if decision == "EXIT" {
      if portfolio.position.Some? {
        var info := portfolio.ExitPosition(price, EXIT_REASON, 1.0);
        return Outcome(EXIT, info.Some?);
      }
      return Outcome(EXIT, false);
    } else if decision == "ENTER" {
      if portfolio.position.Some? {
        var cur := portfolio.position.value;
        if cur.symbol == symbol {
          if cur.direction == direction {
            return Outcome(ENTER, false);
          }
          var ok := portfolio.EnterPosition(symbol, direction, price, leverage, o.target, o.stop, now, false);
          return Outcome(POSITION_FLIP, ok);
        }
        var _ := portfolio.ExitPosition(price, SWITCH_REASON, 1.0);
        LedgerInvariant.ExitKeepsValid(start, price, SWITCH_REASON, 1.0);
        var ok := portfolio.EnterPosition(symbol, direction, price, leverage, o.target, o.stop, now, false);
        return Outcome(SYMBOL_SWITCH, ok);
      }
      var ok := portfolio.EnterPosition(symbol, direction, price, leverage, o.target, o.stop, now, false);
      return Outcome(ENTER, ok);
    }
    if portfolio.position.Some? && PositionSummary(portfolio.State(), quote).None? {
      return Outcome(ERROR, false);
    }
    out := Outcome(HOLD, true);
  }
}
