/**
 * The virtual portfolio's bookkeeping, as functions on a `Ledger` value:
 * at most one open position, a cash balance, and the trade log.
 * Every operation of the portfolio class is specified here and proved equal to these
 * functions in module Portfolio.
 */
module Ledger {
  import opened Wrappers
  import opened Config
  import opened TradeLog

  const FEE_RATE: real := 0.0004
  const SLIPPAGE_RATE: real := 0.001
  const PARTIAL_RATIO: real := 0.5
  const TRAILING_RATIO: real := 0.02
  const MIN_BALANCE: real := 100.0
  /** Share of the balance committed by an entry. */
  const ENTRY_SHARE: real := 0.95
  /** Liquidation floor: a position is never worth less than this share of its investment. */
  const FLOOR_SHARE: real := 0.05

  const LONG: string := "LONG"
  const SHORT: string := "SHORT"
  const PARTIAL_REASON: string := "Partial Take Profit"

  /**
   * The open position. `highest` is the LONG watermark (0 for other directions);
   * `lowest` is the SHORT watermark, `None` standing for the float infinity
   * a non-SHORT position starts with.
   */
  datatype Position = Position(
    symbol: string,
    direction: string,
    entryPrice: real,
    originalEntryPrice: real,
    size: real,
    leverage: real,
    invested: real,
    target: Option<real>,
    stop: Option<real>,
    entryTime: int,
    entryFee: real,
    highest: real,
    lowest: Option<real>,
    trailingStop: Option<real>,
    partialTaken: bool,
    totalFees: real)

  datatype Ledger = Ledger(balance: real, position: Option<Position>, trades: seq<TradeRow>)

  datatype Action = Enter | Exit

  /** `_apply_slippage`: the fill is always moved against the trader. */
  function Slippage(price: real, direction: string, action: Action): (fill: real)
    ensures price > 0.0 && (action == Enter) == (direction == LONG) ==> fill > price
    ensures price > 0.0 && (action == Enter) != (direction == LONG) ==> fill < price
    ensures (action == Enter) == (direction == LONG) ==> fill == price * (1.0 + SLIPPAGE_RATE)
    ensures (action == Enter) != (direction == LONG) ==> fill == price * (1.0 - SLIPPAGE_RATE)
    ensures fill == 0.0 <==> price == 0.0
  {
    if (action == Enter) == (direction == LONG) then price * (1.0 + SLIPPAGE_RATE)
    else price * (1.0 - SLIPPAGE_RATE)
  }

  datatype PositionMetrics = PositionMetrics(value: real, pnl: real, pct: real)

  /** The invested amount attributed to `size` units of the position. */
  function InvestedShare(p: Position, size: real): real
    requires p.size != 0.0
  {
    p.invested * (size / p.size)
  }

  /** Price change relative to the entry, signed so that a gain is positive. */
  function ChangeRate(direction: string, entry: real, price: real): real
    requires entry != 0.0
  {
    if direction == LONG then (price - entry) / entry else (entry - price) / entry
  }

  /** Leveraged value of an investment, never below the liquidation floor. */
  function LeveragedValue(inv: real, rate: real, leverage: real): (v: real)
    ensures v >= FLOOR_SHARE * inv
    ensures v >= inv * (1.0 + rate * leverage)
    ensures v == inv * (1.0 + rate * leverage) || v == FLOOR_SHARE * inv
  {
    var raw := inv * (1.0 + rate * leverage);
    if raw >= FLOOR_SHARE * inv then raw else FLOOR_SHARE * inv
  }

  /** PnL as a percentage of the investment; 0 for an empty investment. */
  function PnlPct(pnl: real, inv: real): (pct: real)
    ensures inv > 0.0 ==> pct * inv == pnl * 100.0
    ensures inv <= 0.0 ==> pct == 0.0
  {
    if inv > 0.0 then pnl / inv * 100.0 else 0.0
  }

  /**
   * `_calculate_position_metrics` for `size` units at `price`; `None` where the source
   * divides by zero (an empty position or a zero entry price).
   */
  function Metrics(p: Position, price: real, size: real): (m: Option<PositionMetrics>)
    ensures m.None? <==> p.size == 0.0 || p.entryPrice == 0.0
    ensures m.Some? ==> m.value.pnl == m.value.value - InvestedShare(p, size)
    ensures m.Some? ==> m.value.value >= FLOOR_SHARE * InvestedShare(p, size)
    ensures m.Some? ==> m.value.pnl >= -(1.0 - FLOOR_SHARE) * InvestedShare(p, size)
    ensures m.Some? ==> m.value.pct == PnlPct(m.value.pnl, InvestedShare(p, size))
  {
    if p.size == 0.0 || p.entryPrice == 0.0 then None
    else
      var inv := InvestedShare(p, size);
      var value := LeveragedValue(inv, ChangeRate(p.direction, p.entryPrice, price), p.leverage);
      Some(PositionMetrics(value, value - inv, PnlPct(value - inv, inv)))
  }

  /** Metrics of the whole position (the source's default `position_size`). */
  function WholeMetrics(p: Position, price: real): Option<PositionMetrics>
  {
    Metrics(p, price, p.size)
  }

  /** `can_enter_position`: only the balance is checked. */
  predicate CanEnter(l: Ledger)
  {
    l.balance >= MIN_BALANCE
  }

  /** The record `enter_position` logs (no realized PnL, no exit reason). */
  function EnterInput(sym: string, direction: string, fill: real, size: real, leverage: real,
                      invested: real, target: Option<real>, stop: Option<real>): TradeInput
  {
    TradeInput(Some(sym), "ENTER", Some(direction), fill, Some(size), Some(leverage),
               Some(invested), None, target, stop, None)
  }

  function EnterRow(sym: string, direction: string, fill: real, size: real, leverage: real,
                    invested: real, target: Option<real>, stop: Option<real>): TradeRow
  {
    RowOf(EnterInput(sym, direction, fill, size, leverage, invested, target, stop))
  }

  /**
   * The opening half of `enter_position`, after any switch: commit 95% of the balance,
   * pay the fee on it, and size the position at the slipped fill price.
   * `sym` is already normalised.
   */
  function OpenSpec(l: Ledger, sym: string, direction: string, price: real, leverage: real,
                    target: Option<real>, stop: Option<real>, now: int): (res: (bool, Ledger))
    ensures !res.0 ==> res.1 == l
    ensures res.0 <==> CanEnter(l) && price != 0.0
    ensures res.0 ==> (
      res.1.position.Some? && res.1.position.value.symbol == sym
      && res.1.position.value.direction == direction
      && res.1.balance == (1.0 - ENTRY_SHARE) * l.balance
      && res.1.balance + res.1.position.value.invested + res.1.position.value.entryFee == l.balance
      && res.1.position.value.entryFee == res.1.position.value.totalFees
      && res.1.position.value.trailingStop.None? && !res.1.position.value.partialTaken
      && |res.1.trades| == |l.trades| + 1 && res.1.trades[..|l.trades|] == l.trades
      && res.1.trades[|l.trades|].action == "ENTER")
    ensures res.0 ==> var p := res.1.position.value;
      p.entryPrice == Slippage(price, direction, Enter) && p.originalEntryPrice == price
      && p.invested == ENTRY_SHARE * l.balance * (1.0 - FEE_RATE)
      && p.entryFee == FEE_RATE * ENTRY_SHARE * l.balance
      && p.size == p.invested * leverage / p.entryPrice && (p.size == 0.0 <==> leverage == 0.0)
      && p.leverage == leverage && p.target == target && p.stop == stop && p.entryTime == now
      && res.1.trades == l.trades + [EnterRow(sym, direction, p.entryPrice, p.size, leverage, p.invested, target, stop)]
  {
    if !CanEnter(l) then (false, l)
    else
      var fill := Slippage(price, direction, Enter);
      if fill == 0.0 then (false, l)
      else
        var pos := Opened(l.balance, sym, direction, fill, price, leverage, target, stop, now);
        var row := EnterRow(sym, direction, fill, pos.size, leverage, pos.invested, target, stop);
        (true, Ledger(l.balance - l.balance * ENTRY_SHARE, Some(pos), l.trades + [row]))
  }

  /**
   * The position opened from `balance` at the slipped price `fill`: 95% of the balance is
   * committed, the fee is taken from it, and the rest is sized with the leverage.
   */
  function Opened(balance: real, sym: string, direction: string, fill: real, price: real, leverage: real,
                  target: Option<real>, stop: Option<real>, now: int): (p: Position)
    requires fill != 0.0
    ensures p.symbol == sym && p.direction == direction && p.entryPrice == fill && p.originalEntryPrice == price
    ensures p.invested == ENTRY_SHARE * balance * (1.0 - FEE_RATE)
    ensures p.entryFee == FEE_RATE * ENTRY_SHARE * balance && p.totalFees == p.entryFee
    ensures p.size == p.invested * leverage / fill
    ensures balance > 0.0 ==> (p.size == 0.0 <==> leverage == 0.0)
    ensures p.leverage == leverage && p.target == target && p.stop == stop && p.entryTime == now
    ensures p.trailingStop.None? && !p.partialTaken
  {
    var avail := balance * ENTRY_SHARE;
    var fee := avail * FEE_RATE;
    var invested := avail - fee;
    SizeZeroIffNoLeverage(invested, leverage, fill);
    Position(sym, direction, fill, price, invested * leverage / fill, leverage, invested, target, stop, now, fee,
             if direction == LONG then fill else 0.0,
             if direction == SHORT then Some(fill) else None,
             None, false, fee)
  }

  /** A position sized `invested · leverage / fill` is empty exactly when the leverage is zero. */
  lemma SizeZeroIffNoLeverage(invested: real, leverage: real, fill: real)
    requires fill != 0.0
    ensures invested > 0.0 ==> (invested * leverage / fill == 0.0 <==> leverage == 0.0)
  {
    if invested > 0.0 && leverage != 0.0 {
      assert invested * leverage != 0.0;
    }
  }

  /** The dictionary `exit_position` returns. */
  datatype ExitInfo = ExitInfo(
    symbol: string,
    direction: string,
    entryPrice: real,
    exitPrice: real,
    originalExitPrice: real,
    size: real,
    leverage: real,
    invested: real,
    realizedPnl: real,
    realizedPnlPct: real,
    reason: string,
    exitFee: real,
    totalFees: real,
    partialExit: bool,
    exitRatio: real)

  /** What is left of a position after selling the fraction `ratio` of it. */
  function Remainder(p: Position, ratio: real, fee: real, reason: string): Position
  {
    p.(size := p.size * (1.0 - ratio), invested := p.invested * (1.0 - ratio),
       totalFees := p.totalFees + fee,
       partialTaken := if reason == PARTIAL_REASON then true else p.partialTaken)
  }

  /** The slipped price an exit fills at. */
  function ExitFill(p: Position, price: real): real
  {
    Slippage(price, p.direction, Exit)
  }

  /** Metrics of the `ratio` share of the position at the exit fill. */
  function ExitMetrics(p: Position, price: real, ratio: real): Option<PositionMetrics>
  {
    Metrics(p, ExitFill(p, price), p.size * ratio)
  }

  /** The exit fee, charged on the value sold. */
  function ExitFee(m: PositionMetrics): real
  {
    m.value * FEE_RATE
  }

  /** What an exit credits to the balance: the value sold net of the fee. */
  function Proceeds(m: PositionMetrics): real
  {
    m.value - ExitFee(m)
  }

  /** The record `exit_position` logs (no invested amount, no target or stop). */
  function ExitInput(p: Position, price: real, reason: string, ratio: real, m: PositionMetrics): TradeInput
  {
    TradeInput(Some(p.symbol), "EXIT", Some(p.direction), ExitFill(p, price), Some(p.size * ratio),
               Some(p.leverage), None, Some(m.pnl - ExitFee(m)), None, None, Some(reason))
  }

  function ExitRow(p: Position, price: real, reason: string, ratio: real, m: PositionMetrics): TradeRow
  {
    RowOf(ExitInput(p, price, reason, ratio, m))
  }

  /** The investment share an exit of `ratio` releases. */
  function ExitInvested(p: Position, ratio: real): real
  {
    p.invested * ratio
  }

  function ExitInfoOf(p: Position, price: real, reason: string, ratio: real, m: PositionMetrics): ExitInfo
    requires ExitInvested(p, ratio) != 0.0
  {
    var realized := m.pnl - ExitFee(m);
    ExitInfo(p.symbol, p.direction, p.entryPrice, ExitFill(p, price), price, p.size * ratio, p.leverage,
             p.invested * ratio, realized, realized / ExitInvested(p, ratio) * 100.0,
             reason, ExitFee(m), p.totalFees + ExitFee(m), ratio < 1.0, ratio)
  }

  /** The ledger after a successful exit: balance credited, row logged, position reduced or closed. */
  function ExitLedger(l: Ledger, p: Position, price: real, reason: string, ratio: real, m: PositionMetrics): (l1: Ledger)
    ensures l1.balance == l.balance + Proceeds(m)
    ensures l1.trades == l.trades + [ExitRow(p, price, reason, ratio, m)]
    ensures l1.position == if ratio < 1.0 then Some(Remainder(p, ratio, ExitFee(m), reason)) else None
  {
    Ledger(l.balance + Proceeds(m),
           if ratio < 1.0 then Some(Remainder(p, ratio, ExitFee(m), reason)) else None,
           l.trades + [ExitRow(p, price, reason, ratio, m)])
  }

  /**
   * `exit_position`: sell the fraction `ratio` of the position at the slipped price,
   * pay the fee on the proceeds and credit the rest. The source raises (and returns
   * `None`) when the metrics divide by zero, and again after crediting the balance
   * when the exited investment is zero.
   */
  function ExitSpec(l: Ledger, price: real, reason: string, ratio: real): (res: (Option<ExitInfo>, Ledger))
    ensures l.position.None? ==> res.0.None? && res.1 == l
    ensures res.0.None? ==> res.1.position == l.position && res.1.trades == l.trades
    ensures res.0.Some? ==> (
      l.position.Some? && res.0.value.symbol == l.position.value.symbol
      && res.0.value.reason == reason && res.0.value.partialExit == (ratio < 1.0))
    ensures res.0.Some? ==> (res.1.position.None? <==> ratio >= 1.0)
  {
    if l.position.None? then (None, l)
    else
      var p := l.position.value;
      var m := ExitMetrics(p, price, ratio);
      if m.None? then (None, l)
      else if ExitInvested(p, ratio) == 0.0 then (None, l.(balance := l.balance + Proceeds(m.value)))
      else (Some(ExitInfoOf(p, price, reason, ratio, m.value)), ExitLedger(l, p, price, reason, ratio, m.value))
  }

  /**
   * `enter_position`: normalise the symbol; with an open position (and no `force`),
   * refuse the same side, flip the opposite side, or close the position before
   * opening one on another symbol. `force` (the source's `force_flip`) skips that check.
   */
  function EnterSpec(l: Ledger, symbol: string, direction: string, price: real, leverage: real,
                     target: Option<real>, stop: Option<real>, now: int, force: bool): (res: (bool, Ledger))
    decreases if force then 0 else 2
  {
    var sym := NormalizeSymbol(symbol);
    if l.position.Some? && !force then
      var cur := l.position.value;
      if cur.symbol == sym && cur.direction == direction then (false, l)
      else if cur.symbol == sym then FlipSpec(l, direction, price, leverage, target, stop, now)
      else
        var switched := ExitSpec(l, price, "Position Switch", 1.0).1;
        OpenSpec(switched, sym, direction, price, leverage, target, stop, now)
    else OpenSpec(l, sym, direction, price, leverage, target, stop, now)
  }

  /**
   * `_flip_position`: close the whole position, then enter the new side on the same symbol.
   * A full exit always clears the position, so the symbol is the one the exit reports.
   */
  function FlipSpec(l: Ledger, direction: string, price: real, leverage: real,
                    target: Option<real>, stop: Option<real>, now: int): (res: (bool, Ledger))
    decreases 1
  {
    var ex := ExitSpec(l, price, "Position Flip", 1.0);
    if ex.0.None? then (false, ex.1)
    else
      EnterSpec(ex.1, ex.0.value.symbol, direction, price, leverage, target, stop, now, true)
  }

  /** `update_trailing_stop`: ratchet the watermark and put the stop 2% behind it. */
  function TrailingSpec(l: Ledger, price: real): (res: (bool, Ledger))
    ensures res.1.balance == l.balance && res.1.trades == l.trades
    ensures res.1.position.Some? <==> l.position.Some?
    ensures !res.0 ==> res.1 == l
    ensures res.0 ==> res.1.position.Some? && res.1.position.value.trailingStop.Some?
    ensures l.position.Some? && l.position.value.direction == LONG ==>
      var p := l.position.value;
      (res.0 <==> price > p.highest)
      && (res.0 ==> res.1.position == Some(p.(highest := price, trailingStop := Some(price * (1.0 - TRAILING_RATIO)))))
    ensures l.position.Some? && l.position.value.direction != LONG ==>
      var p := l.position.value;
      (res.0 <==> p.lowest.None? || price < p.lowest.value)
      && (res.0 ==> res.1.position == Some(p.(lowest := Some(price), trailingStop := Some(price * (1.0 + TRAILING_RATIO)))))
  {
    if l.position.None? then (false, l)
    else
      var p := l.position.value;
      if p.direction == LONG then
        if price > p.highest then
          (true, l.(position := Some(p.(highest := price, trailingStop := Some(price * (1.0 - TRAILING_RATIO))))))
        else (false, l)
      else if p.lowest.None? || price < p.lowest.value then
        (true, l.(position := Some(p.(lowest := Some(price), trailingStop := Some(price * (1.0 + TRAILING_RATIO))))))
      else (false, l)
  }

  /** Python truthiness of an optional price: present and non-zero. */
  predicate Truthy(v: Option<real>)
  {
    v.Some? && v.value != 0.0
  }

  const TARGET_REACHED: string := "TARGET_REACHED"
  const TRAILING_STOP: string := "TRAILING_STOP"
  const PARTIAL_TAKE_PROFIT: string := "PARTIAL_TAKE_PROFIT"

  /** The order in which `check_position_signals` appends its tags. */
  const TAG_ORDER: seq<string> := [TARGET_REACHED, TRAILING_STOP, PARTIAL_TAKE_PROFIT]

  /** A tag's place in `TAG_ORDER`. */
  function TagRank(t: string): (k: int)
    ensures 0 <= k <= 3
    ensures k < 3 <==> t in TAG_ORDER
    ensures k < 3 ==> TAG_ORDER[k] == t
  {
    if t == TARGET_REACHED then 0
    else if t == TRAILING_STOP then 1
    else if t == PARTIAL_TAKE_PROFIT then 2
    else 3
  }

  predicate TargetHit(p: Position, price: real)
  {
    Truthy(p.target)
    && ((p.direction == LONG && price >= p.target.value) || (p.direction == SHORT && price <= p.target.value))
  }

  predicate StopHit(p: Position, price: real)
  {
    Truthy(p.trailingStop)
    && ((p.direction == LONG && price <= p.trailingStop.value)
        || (p.direction == SHORT && price >= p.trailingStop.value))
  }

  /**
   * `check_position_signals`: the tags raised by the open position at `price`, in the
   * order target, trailing stop, partial take-profit; `None` where the metrics raise.
   */
  function SignalsSpec(l: Ledger, price: real): (tags: Option<seq<string>>)
    ensures l.position.None? ==> tags == Some([])
    ensures tags.Some? && l.position.Some? ==>
      (TARGET_REACHED in tags.value <==> TargetHit(l.position.value, price))
      && (TRAILING_STOP in tags.value <==> StopHit(l.position.value, price))
    ensures tags.Some? ==> |tags.value| <= 3
    ensures tags.None? <==> l.position.Some? && WholeMetrics(l.position.value, price).None?
    ensures tags.Some? && l.position.Some? ==>
      var m := WholeMetrics(l.position.value, price).value;
      (PARTIAL_TAKE_PROFIT in tags.value <==> m.pct >= 10.0 && !l.position.value.partialTaken)
    ensures tags.Some? ==> forall t :: t in tags.value ==> t in TAG_ORDER
    ensures tags.Some? ==> forall i, j :: 0 <= i < j < |tags.value| ==> TagRank(tags.value[i]) < TagRank(tags.value[j])
  {
    if l.position.None? then Some([])
    else
      var p := l.position.value;
      var m := WholeMetrics(p, price);
      if m.None? then None
      else
        Some(RaisedTags(TargetHit(p, price), StopHit(p, price), m.value.pct >= 10.0 && !p.partialTaken))
  }

  /** The tags whose conditions hold, appended in `TAG_ORDER`. */
  function RaisedTags(target: bool, stop: bool, partial: bool): (tags: seq<string>)
    ensures TARGET_REACHED in tags <==> target
    ensures TRAILING_STOP in tags <==> stop
    ensures PARTIAL_TAKE_PROFIT in tags <==> partial
    ensures |tags| <= 3 && forall t :: t in tags ==> t in TAG_ORDER
    ensures forall i, j :: 0 <= i < j < |tags| ==> TagRank(tags[i]) < TagRank(tags[j])
  {
    var t1 := if target then [TARGET_REACHED] else [];
    var t2 := if stop then [TRAILING_STOP] else [];
    var t3 := if partial then [PARTIAL_TAKE_PROFIT] else [];
    t1 + t2 + t3
  }

  /** `execute_partial_take_profit`: sell half, marking the position as partially taken. */
  function PartialTakeProfitSpec(l: Ledger, price: real): (res: (Option<ExitInfo>, Ledger))
    ensures res.0.Some? ==> res.1.position.Some? && res.1.position.value.partialTaken
  {
    if l.position.None? then (None, l)
    else ExitSpec(l, price, PARTIAL_REASON, PARTIAL_RATIO)
  }

  /** `get_position_summary`. */
  datatype Summary =
    | NoPosition
    | Held(symbol: string, direction: string, entryPrice: real, currentPrice: real, leverage: real,
           size: real, invested: real, value: real, pnl: real, pct: real,
           target: Option<real>, trailingStop: Option<real>, partialTaken: bool, totalFees: real)

  /**
   * The position valued at the quoted price, or at its own entry price when no quote
   * is stored; `None` where the metrics raise.
   */
  function PositionSummary(l: Ledger, quote: Option<real>): (s: Option<Summary>)
    ensures l.position.None? <==> s == Some(NoPosition)
    ensures s.Some? && s.value.Held? ==> s.value.currentPrice == quote.GetOr(l.position.value.entryPrice)
  {
    if l.position.None? then Some(NoPosition)
    else
      var p := l.position.value;
      var price := quote.GetOr(p.entryPrice);
      var m := WholeMetrics(p, price);
      if m.None? then None
      else Some(Held(p.symbol, p.direction, p.entryPrice, price, p.leverage, p.size, p.invested,
                     m.value.value, m.value.pnl, m.value.pct, p.target, p.trailingStop, p.partialTaken,
                     p.totalFees))
  }

  /** `get_portfolio_status`. */
  datatype Status = Status(
    initialBalance: real,
    balance: real,
    totalValue: real,
    unrealizedPnl: real,
    unrealizedPct: real,
    totalReturn: real,
    hasPosition: bool,
    stats: Statistics)

  /**
   * The balance plus the open position valued at the quoted price (when a quote is
   * stored); `None` where the source raises (metrics, or a zero initial balance).
   */
  function PortfolioStatus(initial: real, l: Ledger, quote: Option<real>): (s: Option<Status>)
    ensures s.Some? ==> s.value.totalReturn * initial == (s.value.totalValue - initial) * 100.0
    ensures s.Some? ==> s.value.hasPosition == l.position.Some?
    ensures s.Some? && (l.position.None? || quote.None?) ==> s.value.totalValue == l.balance
    ensures s.Some? ==> s.value.stats == PortfolioStatistics(l.trades)
    ensures initial == 0.0 ==> s.None?
  {
    var m := if l.position.Some? && quote.Some? then WholeMetrics(l.position.value, quote.value)
             else Some(PositionMetrics(0.0, 0.0, 0.0));
    if m.None? || initial == 0.0 then None
    else
      var total := if l.position.Some? && quote.Some? then l.balance + m.value.value else l.balance;
      Some(Status(initial, l.balance, total, m.value.pnl, m.value.pct,
                  (total - initial) / initial * 100.0, l.position.Some?, PortfolioStatistics(l.trades)))
  }

  /** The trailing stop always sits 2% behind the watermark of its direction. */
  predicate TrailingConsistent(p: Position)
  {
    p.trailingStop.Some? ==>
      (p.direction == LONG ==> p.trailingStop.value == p.highest * (1.0 - TRAILING_RATIO))
      && (p.direction != LONG ==> p.lowest.Some? && p.trailingStop.value == p.lowest.value * (1.0 + TRAILING_RATIO))
  }

  /**
   * What every reachable ledger satisfies: the cash balance is never negative and the open
   * position has a normalised symbol, a non-zero entry price, a non-negative investment and
   * a stop consistent with its watermark.
   */
  predicate ValidLedger(l: Ledger)
  {
    l.balance >= 0.0
    && (l.position.Some? ==>
          NormalForm(l.position.value.symbol) && l.position.value.entryPrice != 0.0
          && l.position.value.invested >= 0.0 && TrailingConsistent(l.position.value))
  }
}
