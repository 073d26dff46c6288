/**
 The back-off counters: 32-bit sums over the status maps and over container statuses.
 The loops visit map entries in any order.
 */
module Backoff {
  import opened Kube
  import opened Sums

  /** Two's-complement truncation to 32 bits, as Go's int32 addition does it. */
  function Wrap32(x: int): (r: Int32)
    ensures -0x8000_0000 <= x <= INT32_MAX ==> r == x
  {
    (x + 0x8000_0000) % 0x1_0000_0000 - 0x8000_0000
  }

  lemma WrapAdd(x: int, y: int)
    ensures Wrap32(Wrap32(x) + y) == Wrap32(x + y)
  {
  }

  /** One truncating addition onto an accumulator that stands for `exact`. */
  method AddWrapped(acc: Int32, v: int, ghost exact: int) returns (r: Int32)
    requires acc == Wrap32(exact)
    ensures r == Wrap32(exact + v)
  {
    WrapAdd(exact, v);
    r := Wrap32(acc + v);
  }

  function ValueIn(m: map<Uid, Int32>): Uid -> int {
    (k: Uid) => if k in m then m[k] else 0
  }

  /** The exact sum of a map's values. */
  ghost function SumMap(m: map<Uid, Int32>): int {
    SumOver(m.Keys, ValueIn(m))
  }

  /** Writing one entry changes the sum by the difference of the two values. */
  lemma SumMapPut(m: map<Uid, Int32>, k: Uid, v: Int32)
    ensures SumMap(m[k := v]) == SumMap(m) + v - (if k in m then m[k] else 0)
  {
    var m' := m[k := v];
    SumOverTake(m'.Keys, ValueIn(m'), k);
    SumOverAgree(m.Keys - {k}, ValueIn(m), ValueIn(m'));
    assert m'.Keys - {k} == m.Keys - {k};
    if k in m {
      SumOverTake(m.Keys, ValueIn(m), k);
    } else {
      assert m.Keys - {k} == m.Keys;
    }
  }

  lemma SumMapNonNegative(m: map<Uid, Int32>)
    requires forall k | k in m :: 0 <= m[k]
    ensures 0 <= SumMap(m)
  {
    SumOverNonNegative(m.Keys, ValueIn(m));
  }

  /** The uids whose entry in FailureCount is true. */
  function TrueKeys(m: map<Uid, bool>): set<Uid> {
    set k | k in m && m[k]
  }

  /** What the two status maps say without any truncation. */
  ghost function ExactTotal(failures: map<Uid, bool>, restarts: map<Uid, Int32>): int {
    |TrueKeys(failures)| + SumMap(restarts)
  }

  /** getTotalBackOffCounts as a function of the two maps. */
  ghost function Total(failures: map<Uid, bool>, restarts: map<Uid, Int32>): Int32 {
    Wrap32(ExactTotal(failures, restarts))
  }

  /** The 32-bit total is the mathematical one exactly when that one fits in an int32. */
  lemma TotalExactIff(failures: map<Uid, bool>, restarts: map<Uid, Int32>)
    requires forall k | k in restarts :: 0 <= restarts[k]
    ensures Total(failures, restarts) == ExactTotal(failures, restarts)
            <==> ExactTotal(failures, restarts) <= INT32_MAX
  {
    SumMapNonNegative(restarts);
  }

  function BackoffLimit(spec: SidekickSpec): Int32 {
    if spec.backoffLimit.Some? then spec.backoffLimit.value else 0
  }

  lemma TrueKeysTake(m: map<Uid, bool>, k: Uid)
    requires k in m
    ensures |TrueKeys(m)| == |TrueKeys(m - {k})| + (if m[k] then 1 else 0)
  {
    if m[k] {
      assert TrueKeys(m) == TrueKeys(m - {k}) + {k};
    } else {
      assert TrueKeys(m) == TrueKeys(m - {k});
    }
  }

  method GetFailureCount(failures: map<Uid, bool>) returns (count: Int32)
    ensures count == Wrap32(|TrueKeys(failures)|)
  {
    count := 0;
    ghost var exact := 0;
    var todo := failures;
    while |todo| > 0
      invariant exact + |TrueKeys(todo)| == |TrueKeys(failures)|
      invariant count == Wrap32(exact)
      decreases |todo|
    {
      var k :| k in todo;
      TrueKeysTake(todo, k);
      if todo[k] {
        count := AddWrapped(count, 1, exact);
        exact := exact + 1;
      }
      todo := todo - {k};
    }
  }

  method GetTotalContainerRestartCounts(restarts: map<Uid, Int32>) returns (total: Int32)
    ensures total == Wrap32(SumMap(restarts))
  {
    total := 0;
    ghost var exact := 0;
    var todo := restarts.Keys;
    while todo != {}
      invariant todo <= restarts.Keys
      invariant exact + SumOver(todo, ValueIn(restarts)) == SumMap(restarts)
      invariant total == Wrap32(exact)
      decreases todo
    {
      var k :| k in todo;
      SumOverTake(todo, ValueIn(restarts), k);
      total := AddWrapped(total, restarts[k], exact);
      exact := exact + restarts[k];
      todo := todo - {k};
    }
  }

  method GetTotalBackOffCounts(failures: map<Uid, bool>, restarts: map<Uid, Int32>) returns (total: Int32)
    ensures total == Total(failures, restarts)
  {
    var failed: int := GetFailureCount(failures);
    var restarted: int := GetTotalContainerRestartCounts(restarts);
    WrapAdd(|TrueKeys(failures)|, restarted);
    WrapAdd(SumMap(restarts), |TrueKeys(failures)|);
    total := Wrap32(failed + restarted);
  }

  /** The exact number of restarts a list of container statuses reports. */
  function SumStatuses(s: seq<ContainerStatus>): nat {
    if s == [] then 0 else SumStatuses(s[..|s| - 1]) + s[|s| - 1].restarts
  }

  function ExactRestarts(pod: Pod): nat {
    SumStatuses(pod.statuses) + SumStatuses(pod.initStatuses)
  }

  function RestartCount(pod: Pod): Int32 {
    Wrap32(ExactRestarts(pod))
  }

  method GetContainerRestartCounts(pod: Pod) returns (count: Int32)
    ensures count == RestartCount(pod)
  {
    count := 0;
    ghost var exact := 0;
    for i := 0 to |pod.statuses|
      invariant exact == SumStatuses(pod.statuses[..i])
      invariant count == Wrap32(exact)
    {
      assert pod.statuses[..i + 1][..i] == pod.statuses[..i];
      count := AddWrapped(count, pod.statuses[i].restarts, exact);
      exact := exact + pod.statuses[i].restarts;
    }
    assert pod.statuses[..|pod.statuses|] == pod.statuses;
    for i := 0 to |pod.initStatuses|
      invariant exact == SumStatuses(pod.statuses) + SumStatuses(pod.initStatuses[..i])
      invariant count == Wrap32(exact)
    {
      assert pod.initStatuses[..i + 1][..i] == pod.initStatuses[..i];
      count := AddWrapped(count, pod.initStatuses[i].restarts, exact);
      exact := exact + pod.initStatuses[i].restarts;
    }
    assert pod.initStatuses[..|pod.initStatuses|] == pod.initStatuses;
  }
}
