/**
 * The indicator data the signal detector reads: per-indicator time series whose samples
 * may be missing, the candles they were computed from, and the "current" readings
 * taken from the series.
 */
module Indicators {
  import opened Wrappers

  /** One candle of the frame: only the close and the volume are read. */
  datatype Candle = Candle(close: real, volume: real)

  /** The `timeseries` dictionary; a missing key is the empty series. */
  datatype Series = Series(
    ma20: seq<Option<real>>,
    ma50: seq<Option<real>>,
    macd: seq<Option<real>>,
    macdSignal: seq<Option<real>>,
    rsi: seq<Option<real>>,
    bbUpper: seq<Option<real>>,
    bbMiddle: seq<Option<real>>,
    bbLower: seq<Option<real>>,
    cci: seq<Option<real>>)

  /** The `current` dictionary: the last present value of each series. */
  datatype Current = Current(
    rsi: Option<real>,
    ma20: Option<real>,
    ma50: Option<real>,
    macd: Option<real>,
    macdSignal: Option<real>,
    bbUpper: Option<real>,
    bbMiddle: Option<real>,
    bbLower: Option<real>,
    cci: Option<real>)

  /** `[x for x in s if x is not None]` */
  function Present(s: seq<Option<real>>): (r: seq<real>)
    ensures |r| <= |s|
    ensures forall i :: 0 <= i < |r| ==> Some(r[i]) in s
    ensures (forall i :: 0 <= i < |s| ==> s[i].Some?) ==> |r| == |s|
    ensures forall i :: 0 <= i < |s| && s[i].Some? ==> s[i].value in r
  {
    if s == [] then []
    else (if s[0].Some? then [s[0].value] else []) + Present(s[1..])
  }

  /** The filter keeps the order of the samples: it distributes over concatenation. */
  lemma {:induction false} PresentConcat(a: seq<Option<real>>, b: seq<Option<real>>)
    ensures Present(a + b) == Present(a) + Present(b)
  {
    if a == [] {
      assert a + b == b;
    } else {
      assert (a + b)[0] == a[0];
      assert (a + b)[1..] == a[1..] + b;
      PresentConcat(a[1..], b);
    }
  }

  /** A new sample adds its value at the end, or nothing when it is missing. */
  lemma PresentAppend(s: seq<Option<real>>, x: Option<real>)
    ensures Present(s + [x]) == Present(s) + (if x.Some? then [x.value] else [])
  {
    PresentConcat(s, [x]);
    assert [x][1..] == [];
  }

  /** Python's `s[-n:]` for a positive `n`: the last `n` items, or all of them. */
  function Tail<T>(s: seq<T>, n: nat): (r: seq<T>)
    requires n > 0
    ensures |r| == if |s| < n then |s| else n
    ensures r == s[|s| - |r|..]
  {
    if |s| <= n then s else s[|s| - n..]
  }

  /** `safe_get_last_value`: the last present sample, `None` when there is none. */
  function LastPresent(s: seq<Option<real>>): (r: Option<real>)
    ensures r.None? <==> forall i :: 0 <= i < |s| ==> s[i].None?
    ensures r.Some? ==> exists i :: 0 <= i < |s| && s[i] == r && forall j :: i < j < |s| ==> s[j].None?
  {
    LastPresentBelow(s, |s|)
  }

  /** The last present sample among the first `n`. */
  function LastPresentBelow(s: seq<Option<real>>, n: nat): (r: Option<real>)
    requires n <= |s|
    ensures r.None? <==> forall i :: 0 <= i < n ==> s[i].None?
    ensures r.Some? ==> exists i :: 0 <= i < n && s[i] == r && forall j :: i < j < n ==> s[j].None?
  {
    if n == 0 then None
    else if s[n - 1].Some? then s[n - 1]
    else LastPresentBelow(s, n - 1)
  }

  function CurrentOf(ts: Series): Current
  {
    Current(LastPresent(ts.rsi), LastPresent(ts.ma20), LastPresent(ts.ma50), LastPresent(ts.macd),
            LastPresent(ts.macdSignal), LastPresent(ts.bbUpper), LastPresent(ts.bbMiddle),
            LastPresent(ts.bbLower), LastPresent(ts.cci))
  }

  /** `safe_get_last_value`, scanning backwards as the source does. */
  method SafeGetLastValue(s: seq<Option<real>>) returns (r: Option<real>)
    ensures r == LastPresent(s)
  {
    var i := |s|;
    while i > 0
      invariant 0 <= i <= |s|
      invariant LastPresent(s) == LastPresentBelow(s, i)
    {
      if s[i - 1].Some? {
        return s[i - 1];
      }
      i := i - 1;
    }
    return None;
  }

  /** Python truthiness of an optional reading: present and non-zero. */
  predicate Truthy(v: Option<real>)
  {
    v.Some? && v.value != 0.0
  }

  function Abs(x: real): (r: real)
    ensures r >= 0.0 && (r == x || r == -x)
  {
    if x < 0.0 then -x else x
  }
}
