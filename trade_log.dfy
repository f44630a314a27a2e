/**
 * The `virtual_trades` table: one row per ENTER or EXIT of the virtual portfolio,
 * and the statistics computed over the EXIT rows.
 */
module TradeLog {
  import opened Wrappers
  import Config

  /** The dictionary handed to `insert_virtual_trade`; missing keys are `None`. */
  datatype TradeInput = TradeInput(
    symbol: Option<string>,
    action: string,
    direction: Option<string>,
    price: real,
    size: Option<real>,
    leverage: Option<real>,
    invested: Option<real>,
    realizedPnl: Option<real>,
    target: Option<real>,
    stop: Option<real>,
    exitReason: Option<string>)

  /** A stored row, after the defaults of the INSERT have been applied. */
  datatype TradeRow = TradeRow(
    symbol: string,
    action: string,
    direction: Option<string>,
    price: real,
    size: real,
    leverage: real,
    invested: real,
    realizedPnl: real,
    target: Option<real>,
    stop: Option<real>,
    exitReason: Option<string>)

  /** A price column keeps only truthy values: a missing or zero price is stored as NULL. */
  function KeepTruthy(p: Option<real>): (r: Option<real>)
    ensures r.Some? <==> p.Some? && p.value != 0.0
    ensures r.Some? ==> r.value == p.value
  {
    if p.Some? && p.value != 0.0 then p else None
  }

  /** The row the INSERT stores for a given input. */
  function RowOf(t: TradeInput): (row: TradeRow)
    ensures row.symbol == t.symbol.GetOr(Config.DEFAULT_SYMBOL)
    ensures row.action == t.action && row.direction == t.direction && row.price == t.price
    ensures row.size == t.size.GetOr(0.0) && row.leverage == t.leverage.GetOr(1.0)
    ensures row.invested == t.invested.GetOr(0.0) && row.realizedPnl == t.realizedPnl.GetOr(0.0)
    ensures row.target.Some? <==> t.target.Some? && t.target.value != 0.0
    ensures row.stop.Some? <==> t.stop.Some? && t.stop.value != 0.0
    ensures row.exitReason == t.exitReason
  {
    TradeRow(t.symbol.GetOr(Config.DEFAULT_SYMBOL), t.action, t.direction, t.price,
             t.size.GetOr(0.0), t.leverage.GetOr(1.0), t.invested.GetOr(0.0),
             t.realizedPnl.GetOr(0.0), KeepTruthy(t.target), KeepTruthy(t.stop), t.exitReason)
  }

  /** The table itself; rows are only ever appended. */
  class TradeTable {
    var rows: seq<TradeRow>

    constructor ()
      ensures rows == []
    {
      rows := [];
    }

    /** `insert_virtual_trade`: append the row and return its AUTOINCREMENT id. */
    method Insert(t: TradeInput) returns (id: nat)
      modifies this
      ensures rows == old(rows) + [RowOf(t)]
      ensures id == |rows|
    {
      rows := rows + [RowOf(t)];
      id := |rows|;
    }
  }

  predicate IsExit(row: TradeRow)
  {
    row.action == "EXIT"
  }

  /** `SELECT COUNT(*) ... WHERE action = 'EXIT'` */
  function ExitCount(rows: seq<TradeRow>): (n: nat)
    ensures n <= |rows|
  {
    if rows == [] then 0
    else ExitCount(rows[..|rows| - 1]) + (if IsExit(rows[|rows| - 1]) then 1 else 0)
  }

  /** `... WHERE action = 'EXIT' AND realized_pnl > 0` */
  function ProfitableCount(rows: seq<TradeRow>): (n: nat)
    ensures n <= ExitCount(rows)
  {
    if rows == [] then 0
    else
      var last := rows[|rows| - 1];
      ProfitableCount(rows[..|rows| - 1]) + (if IsExit(last) && last.realizedPnl > 0.0 then 1 else 0)
  }

  /** `SELECT SUM(realized_pnl) ... WHERE action = 'EXIT'`, with NULL read as 0. */
  function PnlSum(rows: seq<TradeRow>): real
  {
    if rows == [] then 0.0
    else PnlSum(rows[..|rows| - 1]) + (if IsExit(rows[|rows| - 1]) then rows[|rows| - 1].realizedPnl else 0.0)
  }

  datatype Statistics = Statistics(
    totalTrades: nat,
    profitableTrades: nat,
    losingTrades: int,
    winRate: real,
    totalPnl: real,
    averagePnl: real)

  /** Share of profitable exits, in percent; 0 when nothing was exited. */
  function WinRate(profitable: nat, total: nat): (w: real)
    requires profitable <= total
    ensures 0.0 <= w <= 100.0
    ensures total > 0 ==> w * total as real == 100.0 * profitable as real
    ensures total == 0 ==> w == 0.0
  {
    if total > 0 then
      var f := profitable as real / total as real;
      assert f * total as real == profitable as real;
      assert f <= 1.0 by {
        if f > 1.0 {
          assert f * total as real > 1.0 * total as real;
        }
      }
      f * 100.0
    else 0.0
  }

  /** Average over `n` items; 0 for none. */
  function Mean(sum: real, n: nat): (a: real)
    ensures n > 0 ==> a * n as real == sum
    ensures n == 0 ==> a == 0.0
  {
    if n > 0 then sum / n as real else 0.0
  }

  /** `get_portfolio_statistics` over the rows of the table. */
  function PortfolioStatistics(rows: seq<TradeRow>): (s: Statistics)
    ensures s.totalTrades == ExitCount(rows) && s.profitableTrades == ProfitableCount(rows)
    ensures 0 <= s.losingTrades && s.profitableTrades + s.losingTrades == s.totalTrades
    ensures 0.0 <= s.winRate <= 100.0
    ensures s.totalPnl == PnlSum(rows)
    ensures s.winRate == WinRate(s.profitableTrades, s.totalTrades)
    ensures s.averagePnl == Mean(s.totalPnl, s.totalTrades)
  {
    var total := ExitCount(rows);
    var profitable := ProfitableCount(rows);
    var pnl := PnlSum(rows);
    Statistics(total, profitable, total - profitable, WinRate(profitable, total), pnl, Mean(pnl, total))
  }

  /** Logging an entry leaves every statistic unchanged. */
  lemma NonExitRowKeepsStatistics(rows: seq<TradeRow>, row: TradeRow)
    requires !IsExit(row)
    ensures PortfolioStatistics(rows + [row]) == PortfolioStatistics(rows)
  {
    assert (rows + [row])[..|rows|] == rows;
  }

  /** Logging an exit counts one more trade and adds its realized PnL to the total. */
  lemma ExitRowCounts(rows: seq<TradeRow>, row: TradeRow)
    requires IsExit(row)
    ensures PortfolioStatistics(rows + [row]).totalTrades == PortfolioStatistics(rows).totalTrades + 1
    ensures PortfolioStatistics(rows + [row]).totalPnl == PortfolioStatistics(rows).totalPnl + row.realizedPnl
    ensures PortfolioStatistics(rows + [row]).profitableTrades
         == PortfolioStatistics(rows).profitableTrades + (if row.realizedPnl > 0.0 then 1 else 0)
  {
    assert (rows + [row])[..|rows|] == rows;
  }
}
