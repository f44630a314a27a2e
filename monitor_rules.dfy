/**
 * The rules the position monitor applies on one tick, as functions of the ledger and
 * the cooldown stamps: update the trailing stop, compute the position's tags, and
 * dispatch each tag in order to its handler.
 */
module MonitorRules {
  import opened Wrappers
  import opened Ledger
  import LedgerInvariant

  /** Seconds before the same symbol and reason may ask for a fresh analysis. */
  const ANALYSIS_COOLDOWN: int := 300
  /** Below this confidence a reached target is taken in full. */
  const CONFIDENCE_FLOOR: real := 0.6
  const TARGET_EXIT_REASON: string := "Target Reached - Exit Signal"
  const TRAILING_EXIT_REASON: string := "Trailing Stop"

  /**
   * The analysis consulted when a target is reached; a missing key is `None`
   * (the source reads a missing recommendation as HOLD and a missing confidence as 0).
   * A failed or empty analysis is the absence of a `Decision` altogether.
   */
  datatype Decision = Decision(recommendation: Option<string>, confidence: Option<real>)

  /** The key `last_analysis_time` is stamped under. */
  function CooldownKey(symbol: string, kind: string): string
  {
    symbol + "_" + kind
  }

  /** `_can_request_analysis` over a map of stamps. */
  predicate CanRequest(stamps: map<string, int>, key: string, now: int)
  {
    key !in stamps || now - stamps[key] >= ANALYSIS_COOLDOWN
  }

  datatype TargetAction = FullExit | PartialExit | KeepHolding

  /** What a reached target does, given the analysis (if any). */
  function TargetActionOf(d: Option<Decision>): (a: TargetAction)
    ensures d.None? ==> a == PartialExit
    ensures d.Some? ==>
      (a == FullExit <==> d.value.recommendation.GetOr("HOLD") == "SELL" || d.value.confidence.GetOr(0.0) < CONFIDENCE_FLOOR)
    ensures d.Some? ==>
      (a == PartialExit <==> d.value.recommendation.GetOr("HOLD") == "HOLD" && d.value.confidence.GetOr(0.0) >= CONFIDENCE_FLOOR)
  {
    if d.None? then PartialExit
    else
      var rec := d.value.recommendation.GetOr("HOLD");
      var conf := d.value.confidence.GetOr(0.0);
      if rec == "SELL" || conf < CONFIDENCE_FLOOR then FullExit
      else if rec == "HOLD" then PartialExit
      else KeepHolding
  }

  /**
   * `_handle_target_reached`: skip while cooling down; otherwise act on the analysis
   * and stamp the cooldown, whatever the exit returned.
   */
  function TargetReachedSpec(l: Ledger, stamps: map<string, int>, price: real, d: Option<Decision>, now: int)
    : (res: (Ledger, map<string, int>))
    ensures l.position.None? ==> res == (l, stamps)
    ensures l.position.Some? && !CanRequest(stamps, CooldownKey(l.position.value.symbol, TARGET_REACHED), now)
            ==> res == (l, stamps)
    ensures l.position.Some? && CanRequest(stamps, CooldownKey(l.position.value.symbol, TARGET_REACHED), now) ==> (
      res.1 == stamps[CooldownKey(l.position.value.symbol, TARGET_REACHED) := now]
      && (TargetActionOf(d) == FullExit ==> res.0 == ExitSpec(l, price, TARGET_EXIT_REASON, 1.0).1)
      && (TargetActionOf(d) == PartialExit ==> res.0 == PartialTakeProfitSpec(l, price).1)
      && (TargetActionOf(d) == KeepHolding ==> res.0 == l))
  {
    if l.position.None? then (l, stamps)
    else
      var key := CooldownKey(l.position.value.symbol, TARGET_REACHED);
      if !CanRequest(stamps, key, now) then (l, stamps)
      else
        var l1 := match TargetActionOf(d)
                  case FullExit => ExitSpec(l, price, TARGET_EXIT_REASON, 1.0).1
                  case PartialExit => PartialTakeProfitSpec(l, price).1
                  case KeepHolding => l;
        (l1, stamps[key := now])
  }

  /** `_handle_trailing_stop`: a full exit, no analysis consulted. */
  function TrailingStopSpec(l: Ledger, price: real): (l1: Ledger)
    ensures l.position.None? ==> l1 == l
    ensures l.position.Some? ==> l1 == ExitSpec(l, price, TRAILING_EXIT_REASON, 1.0).1
  {
    if l.position.None? then l else ExitSpec(l, price, TRAILING_EXIT_REASON, 1.0).1
  }

  /** `_handle_partial_take_profit`: nothing once half has been taken. */
  function PartialSpec(l: Ledger, price: real): (l1: Ledger)
    ensures l.position.None? || l.position.value.partialTaken ==> l1 == l
    ensures l.position.Some? && !l.position.value.partialTaken ==> l1 == PartialTakeProfitSpec(l, price).1
  {
    if l.position.None? || l.position.value.partialTaken then l else PartialTakeProfitSpec(l, price).1
  }

  /** `_handle_position_signal`: route one tag; a tag met without a position does nothing. */
  function HandleSpec(l: Ledger, stamps: map<string, int>, tag: string, price: real, d: Option<Decision>, now: int)
    : (res: (Ledger, map<string, int>))
    ensures l.position.None? ==> res == (l, stamps)
    ensures tag != TARGET_REACHED ==> res.1 == stamps
  {
    if tag == TARGET_REACHED then TargetReachedSpec(l, stamps, price, d, now)
    else if tag == TRAILING_STOP then (TrailingStopSpec(l, price), stamps)
    else if tag == PARTIAL_TAKE_PROFIT then (PartialSpec(l, price), stamps)
    else (l, stamps)
  }

  /** The tags dispatched in list order, each on the state the previous one left. */
  function DispatchAll(l: Ledger, stamps: map<string, int>, tags: seq<string>, price: real, d: Option<Decision>, now: int)
    : (res: (Ledger, map<string, int>))
    decreases |tags|
  {
    if tags == [] then (l, stamps)
    else
      var prev := DispatchAll(l, stamps, tags[..|tags| - 1], price, d, now);
      HandleSpec(prev.0, prev.1, tags[|tags| - 1], price, d, now)
  }

  /** Dispatching one more tag is handling it on the state the earlier tags left. */
  lemma DispatchOneMore(l: Ledger, stamps: map<string, int>, tags: seq<string>, i: nat,
                        price: real, d: Option<Decision>, now: int)
    requires i < |tags|
    ensures var prev := DispatchAll(l, stamps, tags[..i], price, d, now);
      DispatchAll(l, stamps, tags[..i + 1], price, d, now) == HandleSpec(prev.0, prev.1, tags[i], price, d, now)
  {
    assert tags[..i + 1][..i] == tags[..i];
  }

  /** What a tick leaves behind: the ledger, the cooldown stamps and the signal counter. */
  datatype Tick = Tick(ledger: Ledger, stamps: map<string, int>, signalCount: nat)

  /**
   * `_check_position`: without a position or a price nothing happens; otherwise the
   * trailing stop is updated first, the tags are computed on the updated position and,
   * when there are any, counted once and dispatched. A tag computation that raises ends
   * the tick after the trailing update.
   */
  function CheckSpec(l: Ledger, stamps: map<string, int>, signals: nat, price: Option<real>, d: Option<Decision>, now: int)
    : (t: Tick)
    ensures l.position.None? || price.None? ==> t == Tick(l, stamps, signals)
    ensures l.position.Some? && price.Some? ==> (
      var l1 := TrailingSpec(l, price.value).1;
      var tags := SignalsSpec(l1, price.value);
      (t.signalCount == signals + 1 <==> tags.Some? && tags.value != [])
      && (t.signalCount == signals <==> tags.None? || tags.value == [])
      && (tags.None? || tags.value == [] ==> t.ledger == l1 && t.stamps == stamps)
      && (tags.Some? ==> (t.ledger, t.stamps) == DispatchAll(l1, stamps, tags.value, price.value, d, now)))
  {
    if l.position.None? || price.None? then Tick(l, stamps, signals)
    else
      var l1 := TrailingSpec(l, price.value).1;
      var tags := SignalsSpec(l1, price.value);
      if tags.None? || tags.value == [] then Tick(l1, stamps, signals)
      else
        var r := DispatchAll(l1, stamps, tags.value, price.value, d, now);
        Tick(r.0, r.1, signals + 1)
  }

  /** Once the position is closed, every further tag of the tick is a no-op. */
  lemma ClosedPositionIgnoresTags(l: Ledger, stamps: map<string, int>, tags: seq<string>,
                                  rest: seq<string>, price: real, d: Option<Decision>, now: int)
    requires DispatchAll(l, stamps, tags, price, d, now).0.position.None?
    ensures DispatchAll(l, stamps, tags + rest, price, d, now) == DispatchAll(l, stamps, tags, price, d, now)
  {
    assert (tags + rest)[..|tags|] == tags;
    ClosedPrefix(l, stamps, tags + rest, |tags|, price, d, now);
  }

  lemma {:induction false} ClosedPrefix(l: Ledger, stamps: map<string, int>, tags: seq<string>, k: nat,
                                        price: real, d: Option<Decision>, now: int)
    requires k <= |tags| && DispatchAll(l, stamps, tags[..k], price, d, now).0.position.None?
    ensures DispatchAll(l, stamps, tags, price, d, now) == DispatchAll(l, stamps, tags[..k], price, d, now)
    decreases |tags|
  {
    if k == |tags| {
      assert tags[..k] == tags;
    } else {
      var front := tags[..|tags| - 1];
      assert front[..k] == tags[..k];
      ClosedPrefix(l, stamps, front, k, price, d, now);
      ClosedStep(DispatchAll(l, stamps, front, price, d, now), tags[|tags| - 1], price, d, now);
    }
  }

  lemma ClosedStep(prev: (Ledger, map<string, int>), tag: string, price: real, d: Option<Decision>, now: int)
    requires prev.0.position.None?
    ensures HandleSpec(prev.0, prev.1, tag, price, d, now) == prev
  {
  }

  /** Dispatching without a position changes nothing at all. */
  lemma NoPositionNoDispatch(l: Ledger, stamps: map<string, int>, tags: seq<string>, price: real, d: Option<Decision>, now: int)
    requires l.position.None?
    ensures DispatchAll(l, stamps, tags, price, d, now) == (l, stamps)
  {
    assert DispatchAll(l, stamps, [], price, d, now) == (l, stamps);
    ClosedPositionIgnoresTags(l, stamps, [], tags, price, d, now);
    assert [] + tags == tags;
  }

  /**
   * The only stamp a tick writes is the target-reached key of a position's symbol, and it
   * is written with the current time: every other key keeps its old value.
   */
  lemma {:induction false} DispatchStampsNow(l: Ledger, stamps: map<string, int>, tags: seq<string>,
                                             price: real, d: Option<Decision>, now: int)
    ensures var s := DispatchAll(l, stamps, tags, price, d, now).1;
      stamps.Keys <= s.Keys && forall k :: k in s ==> (k in stamps && s[k] == stamps[k]) || s[k] == now
    decreases |tags|
  {
    if tags != [] {
      DispatchStampsNow(l, stamps, tags[..|tags| - 1], price, d, now);
    }
  }

  /** Every handler keeps the ledger valid. */
  lemma HandleKeepsValid(l: Ledger, stamps: map<string, int>, tag: string, price: real, d: Option<Decision>, now: int)
    requires ValidLedger(l)
    ensures ValidLedger(HandleSpec(l, stamps, tag, price, d, now).0)
  {
    if l.position.None? {
    } else if tag == TARGET_REACHED {
      match TargetActionOf(d)
      case FullExit => LedgerInvariant.ExitKeepsValid(l, price, TARGET_EXIT_REASON, 1.0);
      case PartialExit => LedgerInvariant.PartialTakeProfitKeepsValid(l, price);
      case KeepHolding =>
    } else if tag == TRAILING_STOP {
      LedgerInvariant.ExitKeepsValid(l, price, TRAILING_EXIT_REASON, 1.0);
    } else if tag == PARTIAL_TAKE_PROFIT && !l.position.value.partialTaken {
      LedgerInvariant.PartialTakeProfitKeepsValid(l, price);
    }
  }

  lemma {:induction false} DispatchKeepsValid(l: Ledger, stamps: map<string, int>, tags: seq<string>,
                                              price: real, d: Option<Decision>, now: int)
    requires ValidLedger(l)
    ensures ValidLedger(DispatchAll(l, stamps, tags, price, d, now).0)
    decreases |tags|
  {
    if tags != [] {
      DispatchKeepsValid(l, stamps, tags[..|tags| - 1], price, d, now);
      var prev := DispatchAll(l, stamps, tags[..|tags| - 1], price, d, now);
      HandleKeepsValid(prev.0, prev.1, tags[|tags| - 1], price, d, now);
    }
  }

  /** A whole tick keeps the ledger valid. */
  lemma TickKeepsValid(l: Ledger, stamps: map<string, int>, signals: nat, price: Option<real>, d: Option<Decision>, now: int)
    requires ValidLedger(l)
    ensures ValidLedger(CheckSpec(l, stamps, signals, price, d, now).ledger)
  {
    if l.position.Some? && price.Some? {
      LedgerInvariant.TrailingKeepsValid(l, price.value);
      var l1 := TrailingSpec(l, price.value).1;
      var tags := SignalsSpec(l1, price.value);
      if tags.Some? {
        DispatchKeepsValid(l1, stamps, tags.value, price.value, d, now);
      }
    }
  }

  /**
   * Because the stop is ratcheted before the tags are computed, a positive price that
   * just moved the stop never trips it in the same tick.
   */
  lemma RaisedStopNotHitAtOnce(l: Ledger, price: real)
    requires price > 0.0 && TrailingSpec(l, price).0
    ensures var tags := SignalsSpec(TrailingSpec(l, price).1, price);
      tags.Some? ==> TRAILING_STOP !in tags.value
  {
    var q := TrailingSpec(l, price).1.position.value;
    assert q.direction == LONG ==> q.trailingStop.value == price * (1.0 - TRAILING_RATIO) < price;
    assert q.direction != LONG ==> q.trailingStop.value == price * (1.0 + TRAILING_RATIO) > price;
    assert !StopHit(q, price);
  }
}
