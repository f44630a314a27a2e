/**
 * `VirtualPortfolio`: the object the bot trades through. Its methods update the balance,
 * the open position and the shared trade table in place; each is proved to do exactly
 * what the corresponding function of module Ledger describes.
 */
module Portfolio {
  import opened Wrappers
  import opened Config
  import opened TradeLog
  import opened Ledger
  import LedgerFacts
  import LedgerInvariant

  class VirtualPortfolio {
    const initialBalance: real
    var balance: real
    var position: Option<Position>
    /** The process-wide trade table the portfolio logs to. */
    const db: TradeTable

    /** The portfolio as a ledger value. */
    function State(): Ledger
      reads this, db
    {
      Ledger(balance, position, db.rows)
    }

    ghost predicate Valid()
      reads this, db
    {
      ValidLedger(State())
    }

    constructor (initial: real, table: TradeTable)
      ensures initialBalance == initial && db == table
      ensures State() == Ledger(initial, None, table.rows)
      ensures initial >= 0.0 ==> Valid()
    {
      initialBalance := initial;
      balance := initial;
      position := None;
      db := table;
    }

    /** `can_enter_position` */
    method CanEnterPosition(symbol: string, leverage: real) returns (ok: bool)
      ensures ok <==> balance >= MIN_BALANCE
    {
      ok := balance >= MIN_BALANCE;
    }

    /** `enter_position` */
    method EnterPosition(symbol: string, direction: string, price: real, leverage: real,
                         target: Option<real>, stop: Option<real>, now: int, force: bool)
      returns (ok: bool)
      requires Valid()
      modifies this, db
      ensures (ok, State()) == EnterSpec(old(State()), symbol, direction, price, leverage, target, stop, now, force)
      ensures Valid()
      decreases if force then 0 else 2
    {
      ghost var start := State();
      LedgerInvariant.EnterKeepsValid(start, symbol, direction, price, leverage, target, stop, now, force);
      var sym := NormalizeSymbol(symbol);
      if position.Some? && !force {
        var cur := position.value;
        if cur.symbol == sym && cur.direction == direction {
          return false;
        }
        if cur.symbol == sym {
          ok := FlipPosition(direction, price, leverage, target, stop, now);
          return;
        }
        var _ := ExitPosition(price, "Position Switch", 1.0);
      }
      ok := Open(sym, direction, price, leverage, target, stop, now);
    }

    /** The opening half of `enter_position`. */
    method Open(sym: string, direction: string, price: real, leverage: real,
                target: Option<real>, stop: Option<real>, now: int)
      returns (ok: bool)
      modifies this, db
      ensures (ok, State()) == OpenSpec(old(State()), sym, direction, price, leverage, target, stop, now)
    {
      ghost var start := State();
      var canEnter := CanEnterPosition(sym, leverage);
      if !canEnter {
        return false;
      }
      var fill := Slippage(price, direction, Enter);
      if fill == 0.0 {
        return false;
      }
      assert CanEnter(start);
      var pos := Opened(balance, sym, direction, fill, price, leverage, target, stop, now);
      position := Some(pos);
      balance := balance - balance * ENTRY_SHARE;
      var _ := db.Insert(EnterInput(sym, direction, fill, pos.size, leverage, pos.invested, target, stop));
      ok := true;
    }

    /** `_flip_position` */
    method FlipPosition(direction: string, price: real, leverage: real,
                        target: Option<real>, stop: Option<real>, now: int)
      returns (ok: bool)
      requires Valid()
      modifies this, db
      ensures (ok, State()) == FlipSpec(old(State()), direction, price, leverage, target, stop, now)
      ensures Valid()
      decreases 1
    {
      ghost var start := State();
      LedgerInvariant.FlipKeepsValid(start, direction, price, leverage, target, stop, now);
      var info := ExitPosition(price, "Position Flip", 1.0);
      if info.None? {
        return false;
      }
      LedgerInvariant.ExitKeepsValid(start, price, "Position Flip", 1.0);
      ok := EnterPosition(info.value.symbol, direction, price, leverage, target, stop, now, true);
    }

    /** `exit_position` */
    method ExitPosition(price: real, reason: string, ratio: real) returns (info: Option<ExitInfo>)
      modifies this, db
      ensures (info, State()) == ExitSpec(old(State()), price, reason, ratio)
    {
      ghost var start := State();
      if position.None? {
        return None;
      }
      var p := position.value;
      var m := ExitMetrics(p, price, ratio);
      if m.None? {
        LedgerFacts.ExitRaisesEarly(start, price, reason, ratio);
        return None;
      }
      var fee := ExitFee(m.value);
      balance := balance + Proceeds(m.value);
      if ExitInvested(p, ratio) == 0.0 {
        // The realized-PnL percentage divides by zero here, after the balance was credited.
        LedgerFacts.ExitRaisesLate(start, price, reason, ratio);
        return None;
      }
      info := Some(ExitInfoOf(p, price, reason, ratio, m.value));
      var _ := db.Insert(ExitInput(p, price, reason, ratio, m.value));
      if ratio < 1.0 {
        position := Some(Remainder(p, ratio, fee, reason));
      } else {
        position := None;
      }
      LedgerFacts.ExitShape(start, price, reason, ratio);
      assert State() == ExitLedger(start, p, price, reason, ratio, m.value);
    }

    /** `update_trailing_stop` */
    method UpdateTrailingStop(price: real) returns (moved: bool)
      modifies this
      ensures (moved, State()) == TrailingSpec(old(State()), price)
    {
      if position.None? {
        return false;
      }
      var p := position.value;
      if p.direction == LONG {
        if price > p.highest {
          position := Some(p.(highest := price, trailingStop := Some(price * (1.0 - TRAILING_RATIO))));
          return true;
        }
      } else if p.lowest.None? || price < p.lowest.value {
        position := Some(p.(lowest := Some(price), trailingStop := Some(price * (1.0 + TRAILING_RATIO))));
        return true;
      }
      return false;
    }

    /** `check_position_signals`, building the tag list as the source does. */
    method CheckPositionSignals(price: real) returns (tags: Option<seq<string>>)
      ensures tags == SignalsSpec(State(), price)
    {
      if position.None? {
        return Some([]);
      }
      var p := position.value;
      var signals: seq<string> := [];
      if Truthy(p.target) {
        if (p.direction == LONG && price >= p.target.value) || (p.direction == SHORT && price <= p.target.value) {
          signals := signals + [TARGET_REACHED];
        }
      }
      if Truthy(p.trailingStop) {
        if (p.direction == LONG && price <= p.trailingStop.value)
           || (p.direction == SHORT && price >= p.trailingStop.value) {
          signals := signals + [TRAILING_STOP];
        }
      }
      var m := WholeMetrics(p, price);
      if m.None? {
        return None;
      }
      if m.value.pct >= 10.0 && !p.partialTaken {
        signals := signals + [PARTIAL_TAKE_PROFIT];
      }
      tags := Some(signals);
      ghost var t1 := if TargetHit(p, price) then [TARGET_REACHED] else [];
      ghost var t2 := if StopHit(p, price) then [TRAILING_STOP] else [];
      ghost var t3 := if m.value.pct >= 10.0 && !p.partialTaken then [PARTIAL_TAKE_PROFIT] else [];
      assert signals == t1 + t2 + t3;
    }

    /** `execute_partial_take_profit` */
    method ExecutePartialTakeProfit(price: real) returns (info: Option<ExitInfo>)
      modifies this, db
      ensures (info, State()) == PartialTakeProfitSpec(old(State()), price)
    {
      if position.None? {
        return None;
      }
      info := ExitPosition(price, PARTIAL_REASON, PARTIAL_RATIO);
    }
  }
}
