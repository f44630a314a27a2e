/**
 * `PositionMonitor`: the object that watches the open position. Its counters, running
 * flag and cooldown stamps are updated in place, and its handlers call the portfolio's
 * mutators; every method is proved to follow module MonitorRules.
 */
module Monitor {
  import opened Wrappers
  import opened Ledger
  import opened MonitorRules
  import Portfolio

  class PositionMonitor {
    var running: bool
    var lastCheckTime: Option<int>
    var checkCount: nat
    var signalCount: nat
    /** Cooldown stamps, keyed `symbol_REASON`, in seconds. */
    var lastAnalysisTime: map<string, int>
    const portfolio: Portfolio.VirtualPortfolio

    /** The ledger of the watched portfolio. */
    function Book(): Ledger
      reads portfolio, portfolio.db
    {
      portfolio.State()
    }

    constructor (watched: Portfolio.VirtualPortfolio)
      ensures portfolio == watched
      ensures !running && lastCheckTime.None? && checkCount == 0 && signalCount == 0
      ensures lastAnalysisTime == map[]
    {
      portfolio := watched;
      running := false;
      lastCheckTime := None;
      checkCount := 0;
      signalCount := 0;
      lastAnalysisTime := map[];
    }

    /** `start_monitoring`: refuses to start twice (the thread itself is not modelled). */
    method StartMonitoring() returns (started: bool)
      modifies this
      ensures started <==> !old(running)
      ensures running
      ensures checkCount == old(checkCount) && signalCount == old(signalCount)
      ensures lastCheckTime == old(lastCheckTime) && lastAnalysisTime == old(lastAnalysisTime)
    {
      if running {
        return false;
      }
      running := true;
      started := true;
    }

    /** `stop_monitoring` */
    method StopMonitoring()
      modifies this
      ensures !running
      ensures checkCount == old(checkCount) && signalCount == old(signalCount)
      ensures lastCheckTime == old(lastCheckTime) && lastAnalysisTime == old(lastAnalysisTime)
    {
      running := false;
    }

    /** `_can_request_analysis` */
    method CanRequestAnalysis(symbol: string, kind: string, now: int) returns (ok: bool)
      ensures ok <==> symbol + "_" + kind !in lastAnalysisTime
                      || now - lastAnalysisTime[symbol + "_" + kind] >= ANALYSIS_COOLDOWN
    {
      var key := CooldownKey(symbol, kind);
      if key !in lastAnalysisTime {
        return true;
      }
      ok := now - lastAnalysisTime[key] >= ANALYSIS_COOLDOWN;
    }

    /** `_handle_target_reached`, with the analysis result passed in. */
    method HandleTargetReached(price: real, d: Option<Decision>, now: int)
      modifies this, portfolio, portfolio.db
      ensures (Book(), lastAnalysisTime) == TargetReachedSpec(old(Book()), old(lastAnalysisTime), price, d, now)
      ensures running == old(running) && checkCount == old(checkCount) && signalCount == old(signalCount)
      ensures lastCheckTime == old(lastCheckTime)
    {
      if portfolio.position.None? {
        return;
      }
      var symbol := portfolio.position.value.symbol;
      var can := CanRequestAnalysis(symbol, TARGET_REACHED, now);
      if !can {
        return;
      }
      if d.Some? {
        var rec := d.value.recommendation.GetOr("HOLD");
        var conf := d.value.confidence.GetOr(0.0);
        if rec == "SELL" || conf < CONFIDENCE_FLOOR {
          var _ := portfolio.ExitPosition(price, TARGET_EXIT_REASON, 1.0);
        } else if rec == "HOLD" {
          var _ := portfolio.ExecutePartialTakeProfit(price);
        }
      } else {
        var _ := portfolio.ExecutePartialTakeProfit(price);
      }
      lastAnalysisTime := lastAnalysisTime[CooldownKey(symbol, TARGET_REACHED) := now];
    }

    /** `_handle_trailing_stop` */
    method HandleTrailingStop(price: real)
      modifies portfolio, portfolio.db
      ensures Book() == TrailingStopSpec(old(Book()), price)
    {
      if portfolio.position.None? {
        return;
      }
      var _ := portfolio.ExitPosition(price, TRAILING_EXIT_REASON, 1.0);
    }

    /** `_handle_partial_take_profit` */
    method HandlePartialTakeProfit(price: real)
      modifies portfolio, portfolio.db
      ensures Book() == PartialSpec(old(Book()), price)
    {
      if portfolio.position.None? || portfolio.position.value.partialTaken {
        return;
      }
      var _ := portfolio.ExecutePartialTakeProfit(price);
    }

    /** `_handle_position_signal` */
    method HandlePositionSignal(tag: string, price: real, d: Option<Decision>, now: int)
      modifies this, portfolio, portfolio.db
      ensures (Book(), lastAnalysisTime) == HandleSpec(old(Book()), old(lastAnalysisTime), tag, price, d, now)
      ensures running == old(running) && checkCount == old(checkCount) && signalCount == old(signalCount)
      ensures lastCheckTime == old(lastCheckTime)
    {
      if portfolio.position.None? {
        return;
      }
      if tag == TARGET_REACHED {
        HandleTargetReached(price, d, now);
      } else if tag == TRAILING_STOP {
        HandleTrailingStop(price);
      } else if tag == PARTIAL_TAKE_PROFIT {
        HandlePartialTakeProfit(price);
      }
    }

    /**
     * `_check_position`: the quote and the analysis are inputs; the tags are handled one
     * by one in list order.
     */
    method CheckPosition(price: Option<real>, d: Option<Decision>, now: int)
      modifies this, portfolio, portfolio.db
      ensures Tick(Book(), lastAnalysisTime, signalCount)
           == CheckSpec(old(Book()), old(lastAnalysisTime), old(signalCount), price, d, now)
      ensures running == old(running) && checkCount == old(checkCount) && lastCheckTime == old(lastCheckTime)
    {
      if portfolio.position.None? || price.None? {
        return;
      }
      var _ := portfolio.UpdateTrailingStop(price.value);
      var tags := portfolio.CheckPositionSignals(price.value);
      if tags.None? || tags.value == [] {
        return;
      }
      signalCount := signalCount + 1;
      var ts := tags.value;
      ghost var l1 := Book();
      ghost var s1 := lastAnalysisTime;
      var i := 0;
      while i < |ts|
        invariant 0 <= i <= |ts|
        invariant (Book(), lastAnalysisTime) == DispatchAll(l1, s1, ts[..i], price.value, d, now)
        invariant signalCount == old(signalCount) + 1
        invariant running == old(running) && checkCount == old(checkCount) && lastCheckTime == old(lastCheckTime)
      {
        DispatchOneMore(l1, s1, ts, i, price.value, d, now);
        HandlePositionSignal(ts[i], price.value, d, now);
        i := i + 1;
      }
      assert ts[..|ts|] == ts;
    }

    /** One pass of the body of `_monitoring_loop` (the sleep and the thread are not modelled). */
    method LoopIteration(price: Option<real>, d: Option<Decision>, now: int)
      modifies this, portfolio, portfolio.db
      ensures checkCount == old(checkCount) + 1 && lastCheckTime == Some(now)
      ensures Tick(Book(), lastAnalysisTime, signalCount)
           == CheckSpec(old(Book()), old(lastAnalysisTime), old(signalCount), price, d, now)
      ensures running == old(running)
    {
      lastCheckTime := Some(now);
      checkCount := checkCount + 1;
      if portfolio.position.Some? {
        CheckPosition(price, d, now);
      }
    }

    /** `force_position_check`: reports whether a position was there to check. */
    method ForcePositionCheck(price: Option<real>, d: Option<Decision>, now: int) returns (checked: bool)
      modifies this, portfolio, portfolio.db
      ensures checked <==> old(Book()).position.Some?
      ensures Tick(Book(), lastAnalysisTime, signalCount)
           == CheckSpec(old(Book()), old(lastAnalysisTime), old(signalCount), price, d, now)
      ensures running == old(running) && checkCount == old(checkCount) && lastCheckTime == old(lastCheckTime)
    {
      if portfolio.position.None? {
        return false;
      }
      CheckPosition(price, d, now);
      checked := true;
    }
  }
}
