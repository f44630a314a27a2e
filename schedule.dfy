/**
 * The next run time of a job that fires at listed minutes of every hour: the first
 * listed minute after the current one in this hour, or else the smallest listed minute
 * of the next hour. The data collector and the scheduler compute it the same way.
 */
module Schedule {
  import opened Wrappers

  predicate Sorted(s: seq<int>)
  {
    forall i, j :: 0 <= i < j < |s| ==> s[i] <= s[j]
  }

  /** Inserts `x` into a sorted sequence. */
  function Insert(x: int, s: seq<int>): (r: seq<int>)
    requires Sorted(s)
    ensures Sorted(r) && multiset(r) == multiset(s) + multiset{x}
  {
    if s == [] then [x]
    else if x <= s[0] then [x] + s
    else
      var rest := Insert(x, s[1..]);
      InsertBehindHead(x, s, rest);
      [s[0]] + rest
  }

  /** Putting the head back in front of the insertion into the tail keeps order and contents. */
  lemma InsertBehindHead(x: int, s: seq<int>, rest: seq<int>)
    requires s != [] && Sorted(s) && s[0] < x
    requires Sorted(rest) && multiset(rest) == multiset(s[1..]) + multiset{x}
    ensures Sorted([s[0]] + rest) && multiset([s[0]] + rest) == multiset(s) + multiset{x}
  {
    assert s == [s[0]] + s[1..];
    forall i | 0 <= i < |rest|
      ensures s[0] <= rest[i]
    {
      assert rest[i] in multiset(rest);
    }
  }

  /** Python's `sorted` on a list of integers. */
  function SortMinutes(s: seq<int>): (r: seq<int>)
    ensures Sorted(r) && multiset(r) == multiset(s)
  {
    if s == [] then []
    else
      assert s == [s[0]] + s[1..];
      Insert(s[0], SortMinutes(s[1..]))
  }

  /** Python's `min` on a non-empty list. */
  function Min(s: seq<int>): (m: int)
    requires s != []
    ensures m in s && forall x :: x in s ==> m <= x
  {
    if |s| == 1 then s[0]
    else
      var rest := Min(s[1..]);
      assert forall x :: x in s ==> x == s[0] || x in s[1..];
      if s[0] <= rest then s[0] else rest
  }

  /** A run time: minute `minute` of the current hour plus `hoursAhead` hours. */
  datatype RunTime = RunTime(minute: int, hoursAhead: nat)

  /**
   * `_get_next_collection_time` / `_get_next_execution_time`, for the clock's current
   * minute. `None` stands for the two ways they raise: `min` of an empty list, and
   * `replace(minute=...)` with a minute outside 0..59.
   */
  method NextRunTime(minutes: seq<int>, current: int) returns (r: Option<RunTime>)
    requires 0 <= current < 60
    ensures r.None? <==> minutes == [] || exists m :: m in minutes && !(0 <= m < 60) && Chosen(minutes, current, m)
    ensures r.Some? ==> 0 <= r.value.minute < 60 && r.value.minute in minutes
    ensures r.Some? && r.value.hoursAhead == 0 ==>
      r.value.minute > current && forall m :: m in minutes && m > current ==> r.value.minute <= m
    ensures r.Some? ==> r.value.hoursAhead <= 1
    ensures r.Some? && r.value.hoursAhead == 1 ==>
      (forall m :: m in minutes ==> m <= current && r.value.minute <= m)
  {
    var sorted := SortMinutes(minutes);
    var next: Option<int> := None;
    var i := 0;
    while i < |sorted|
      invariant 0 <= i <= |sorted|
      invariant forall k :: 0 <= k < i ==> sorted[k] <= current
    {
      if sorted[i] > current {
        next := Some(sorted[i]);
        break;
      }
      i := i + 1;
    }
    SortKeepsMembers(minutes);
    var m: int;
    var hours: nat;
    if next.None? {
      if minutes == [] {
        return None;
      }
      m := Min(minutes);
      hours := 1;
      ChosenWhenNoneAbove(minutes, current, m);
    } else {
      m := next.value;
      hours := 0;
      ChosenFirstAbove(minutes, current, sorted, i);
    }
    if !(0 <= m < 60) {
      return None;
    }
    r := Some(RunTime(m, hours));
  }

  lemma SortKeepsMembers(s: seq<int>)
    ensures forall m :: m in s <==> m in SortMinutes(s)
  {
    forall m ensures m in s <==> m in SortMinutes(s) {
      assert m in s <==> m in multiset(s);
      assert m in SortMinutes(s) <==> m in multiset(SortMinutes(s));
    }
  }

  lemma ChosenWhenNoneAbove(minutes: seq<int>, current: int, m: int)
    requires forall x :: x in minutes ==> x <= current
    requires m in minutes && forall x :: x in minutes ==> m <= x
    ensures Chosen(minutes, current, m) && forall n :: Chosen(minutes, current, n) ==> n == m
  {
  }

  lemma ChosenFirstAbove(minutes: seq<int>, current: int, sorted: seq<int>, i: int)
    requires Sorted(sorted) && forall x :: x in minutes <==> x in sorted
    requires 0 <= i < |sorted| && sorted[i] > current
    requires forall k :: 0 <= k < i ==> sorted[k] <= current
    ensures Chosen(minutes, current, sorted[i]) && forall n :: Chosen(minutes, current, n) ==> n == sorted[i]
  {
    forall x | x in minutes && x > current
      ensures sorted[i] <= x
    {
      var k :| 0 <= k < |sorted| && sorted[k] == x;
    }
  }

  /** The minute the computation settles on, before the clock replaces it. */
  ghost predicate Chosen(minutes: seq<int>, current: int, m: int)
  {
    m in minutes
    && if exists x :: x in minutes && x > current
       then m > current && forall x :: x in minutes && x > current ==> m <= x
       else forall x :: x in minutes ==> m <= x
  }
}
