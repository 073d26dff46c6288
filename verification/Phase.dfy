/**
 The Sidekick phase: what a reconcile records about the pod in the two back-off maps, and the
 phase it derives from them.
 */
module Phase {
  import opened Kube
  import opened Backoff

  /** isSidekickPodRunning; an absent pod is the zero Pod, whose uid is empty. */
  predicate PodIsRunning(pod: Option<Pod>) {
    pod.Some? && !pod.value.deleting && pod.value.phase == PodRunning
    && forall s | s in pod.value.statuses :: s.running
  }

  ghost predicate OverLimit(spec: SidekickSpec, status: Status) {
    Total(status.failures, status.restarts) > BackoffLimit(spec)
  }

  /** The two maps after a look at the pod: its restarts, and whether it failed by itself. Under
      a policy other than Never, a failure that alone would push the total over the limit, or
      that comes after the limit was crossed, is recorded as false. */
  ghost function Observe(spec: SidekickSpec, status: Status, pod: Option<Pod>): Status {
    match pod
    case None => status
    case Some(p) =>
      var seen := status.(restarts := status.restarts[p.uid := RestartCount(p)]);
      if p.phase == PodFailed && !p.deleting then
        var marked := seen.(failures := seen.failures[p.uid := true]);
        if spec.policy != Never && OverLimit(spec, marked)
        then seen.(failures := seen.failures[p.uid := false])
        else marked
      else seen
  }

  /** getSidekickPhase. */
  ghost function PhaseOf(spec: SidekickSpec, status: Status, pod: Option<Pod>): SidekickPhase {
    if spec.policy == Always then
      if PodIsRunning(pod) then SkCurrent else SkDegraded
    else if status.phase == SkSucceeded then SkSucceeded
    else if pod.Some? && pod.value.phase == PodSucceeded && !pod.value.deleting then SkSucceeded
    else if OverLimit(spec, status) then SkFailed
    else if PodIsRunning(pod) then SkCurrent
    else SkDegraded
  }

  /** calculateSidekickPhase. */
  ghost function Calculate(spec: SidekickSpec, status: Status, pod: Option<Pod>): Status {
    var seen := Observe(spec, status, pod);
    seen.(phase := PhaseOf(spec, seen, pod))
  }

  method IsSidekickPodRunning(pod: Option<Pod>) returns (r: bool)
    ensures r == PodIsRunning(pod)
  {
    if pod.None? || pod.value.deleting {
      return false;
    }
    if pod.value.phase != PodRunning {
      return false;
    }
    for i := 0 to |pod.value.statuses|
      invariant forall k | 0 <= k < i :: pod.value.statuses[k].running
    {
      if !pod.value.statuses[i].running {
        assert pod.value.statuses[i] in pod.value.statuses;
        return false;
      }
    }
    return true;
  }

  method GetSidekickPhase(spec: SidekickSpec, status: Status, pod: Option<Pod>) returns (phase: SidekickPhase)
    ensures phase == PhaseOf(spec, status, pod)
  {
    var running := IsSidekickPodRunning(pod);
    if spec.policy == Always {
      return if !running then SkDegraded else SkCurrent;
    }
    if status.phase == SkSucceeded {
      return SkSucceeded;
    }
    if pod.Some? && pod.value.phase == PodSucceeded && !pod.value.deleting {
      return SkSucceeded;
    }
    var total := GetTotalBackOffCounts(status.failures, status.restarts);
    if total > BackoffLimit(spec) {
      return SkFailed;
    }
    return if !running then SkDegraded else SkCurrent;
  }

  method CalculateSidekickPhase(spec: SidekickSpec, status0: Status, pod: Option<Pod>) returns (status: Status)
    ensures status == Calculate(spec, status0, pod)
  {
    status := status0;
    if pod.Some? {
      var uid := pod.value.uid;
      var restarts := GetContainerRestartCounts(pod.value);
      status := status.(restarts := status.restarts[uid := restarts]);
      if pod.value.phase == PodFailed && !pod.value.deleting {
        status := status.(failures := status.failures[uid := true]);
        if spec.policy != Never {
          var total := GetTotalBackOffCounts(status.failures, status.restarts);
          if total > BackoffLimit(spec) {
            status := status.(failures := status.failures[uid := false]);
            assert status0.failures[uid := true][uid := false] == status0.failures[uid := false];
          }
        }
      }
    }
    var phase := GetSidekickPhase(spec, status, pod);
    status := status.(phase := phase);
  }

  // ------------------------------------------------- what observing changes

  function Marked(failures: map<Uid, bool>, u: Uid): bool {
    u in failures && failures[u]
  }

  lemma TrueKeysPut(m: map<Uid, bool>, u: Uid, b: bool)
    ensures TrueKeys(m[u := b]) == (if b then TrueKeys(m) + {u} else TrueKeys(m) - {u})
  {
  }

  /** Observing a pod touches only its own entries. */
  lemma ObserveFrame(spec: SidekickSpec, status: Status, pod: Option<Pod>, u: Uid)
    requires pod.Some? ==> u != pod.value.uid
    ensures Marked(Observe(spec, status, pod).failures, u) == Marked(status.failures, u)
  {
  }

  /** A pod that is being deleted keeps its failure entry. */
  lemma ObserveDeleting(spec: SidekickSpec, status: Status, pod: Pod)
    requires pod.deleting || pod.phase != PodFailed
    ensures Observe(spec, status, Some(pod)).failures == status.failures
  {
  }

  /** Restart totals that are recorded for every pod, with this pod's count brought up to date. */
  ghost function CurrentRestarts(status: Status, pod: Option<Pod>): map<Uid, Int32> {
    match pod
    case None => status.restarts
    case Some(p) => status.restarts[p.uid := RestartCount(p)]
  }

  /** A calculation writes nothing but the entries of its own pod; all others keep their values. */
  lemma CalculateShape(spec: SidekickSpec, status: Status, pod: Option<Pod>)
    ensures Calculate(spec, status, pod).restarts == CurrentRestarts(status, pod)
    ensures Calculate(spec, status, pod).failures.Keys
            <= status.failures.Keys + (if pod.Some? then {pod.value.uid} else {})
    ensures forall u | u in status.failures && (pod.None? || u != pod.value.uid) ::
              && u in Calculate(spec, status, pod).failures
              && Calculate(spec, status, pod).failures[u] == status.failures[u]
  {
  }

  /** The back-off total, with room for some more failures, stays in the range of an int32. */
  ghost predicate Fits(status: Status, pod: Option<Pod>, room: nat) {
    && (forall u | u in status.restarts :: 0 <= status.restarts[u])
    && (pod.Some? ==> ExactRestarts(pod.value) <= INT32_MAX)
    && ExactTotal(status.failures, CurrentRestarts(status, pod)) + room <= INT32_MAX
  }

  /** Recorded restart counts never exceed what the pod itself reports. */
  ghost predicate RestartsBehind(status: Status, pod: Option<Pod>) {
    pod.Some? && pod.value.uid in status.restarts ==> status.restarts[pod.value.uid] <= ExactRestarts(pod.value)
  }

  lemma CurrentRestartsGrow(status: Status, pod: Option<Pod>)
    requires Fits(status, pod, 1) && RestartsBehind(status, pod)
    ensures SumMap(status.restarts) <= SumMap(CurrentRestarts(status, pod))
    ensures forall u | u in CurrentRestarts(status, pod) :: 0 <= CurrentRestarts(status, pod)[u]
  {
    if pod.Some? {
      SumMapPut(status.restarts, pod.value.uid, RestartCount(pod.value));
    }
  }

  lemma MarkOne(m: map<Uid, bool>, u: Uid)
    ensures |TrueKeys(m)| <= |TrueKeys(m[u := true])| <= |TrueKeys(m)| + 1
    ensures |TrueKeys(m[u := false])| <= |TrueKeys(m)|
    ensures !Marked(m, u) ==> |TrueKeys(m[u := false])| == |TrueKeys(m)|
    ensures !Marked(m, u) ==> |TrueKeys(m[u := true])| == |TrueKeys(m)| + 1
  {
    TrueKeysPut(m, u, true);
    TrueKeysPut(m, u, false);
    assert TrueKeys(m) - {u} <= TrueKeys(m);
    if !Marked(m, u) {
      assert TrueKeys(m) - {u} == TrueKeys(m);
    } else {
      assert TrueKeys(m) + {u} == TrueKeys(m);
      assert |TrueKeys(m) - {u}| == |TrueKeys(m)| - 1;
    }
  }

  /** Under Fits the 32-bit comparison with the limit is the mathematical one. */
  lemma OverLimitExact(spec: SidekickSpec, status: Status, pod: Option<Pod>)
    requires Fits(status, pod, 1) && RestartsBehind(status, pod)
    ensures var seen := Observe(spec, status, pod);
            && Total(seen.failures, seen.restarts) == ExactTotal(seen.failures, seen.restarts)
            && seen.restarts == CurrentRestarts(status, pod)
    ensures pod.Some? ==>
              var marked := status.failures[pod.value.uid := true];
              Total(marked, CurrentRestarts(status, pod)) == ExactTotal(marked, CurrentRestarts(status, pod))
  {
    var restarts := CurrentRestarts(status, pod);
    CurrentRestartsGrow(status, pod);
    TotalFits(status.failures, restarts);
    if pod.Some? {
      var u := pod.value.uid;
      MarkOne(status.failures, u);
      TotalFits(status.failures[u := true], restarts);
      TotalFits(status.failures[u := false], restarts);
    }
  }

  lemma TotalFits(failures: map<Uid, bool>, restarts: map<Uid, Int32>)
    requires forall k | k in restarts :: 0 <= restarts[k]
    requires ExactTotal(failures, restarts) <= INT32_MAX
    ensures Total(failures, restarts) == ExactTotal(failures, restarts)
  {
    SumMapNonNegative(restarts);
  }

  /** What truncation costs: short of 2^32, a non-negative limit counts as exceeded exactly when the
      true total exceeds it and still fits in an int32. */
  lemma OverLimitIff(spec: SidekickSpec, status: Status)
    requires BackoffLimit(spec) >= 0
    requires 0 <= ExactTotal(status.failures, status.restarts) < 0x1_0000_0000
    ensures OverLimit(spec, status) <==>
            BackoffLimit(spec) < ExactTotal(status.failures, status.restarts) <= INT32_MAX
  {
    var exact := ExactTotal(status.failures, status.restarts);
    if exact > INT32_MAX {
      assert Wrap32(exact) == exact - 0x1_0000_0000;
    }
  }

  // ------------------------------------------------- what the phase means

  /** The pod is there and live, and every one of its containers runs. */
  predicate Healthy(pod: Option<Pod>) {
    && pod.Some? && !pod.value.deleting && pod.value.phase == PodRunning
    && forall i | 0 <= i < |pod.value.statuses| :: pod.value.statuses[i].running
  }

  /** Success was recorded before, or the live pod reports it. */
  predicate Successful(status: Status, pod: Option<Pod>) {
    status.phase == SkSucceeded || (pod.Some? && pod.value.phase == PodSucceeded && !pod.value.deleting)
  }

  /** Under Always the phase says whether the pod is healthy; under any other policy success comes first,
      and a phase that is not Failed again says whether the pod is healthy. */
  lemma PhaseMeaning(spec: SidekickSpec, status: Status, pod: Option<Pod>)
    ensures var phase := Calculate(spec, status, pod).phase;
            && (spec.policy == Always || phase == SkCurrent || phase == SkDegraded ==>
                  phase == if Healthy(pod) then SkCurrent else SkDegraded)
            && (spec.policy != Always ==> (phase == SkSucceeded <==> Successful(status, pod)))
            && phase in {SkCurrent, SkDegraded, SkFailed, SkSucceeded}
  {
    assert pod.Some? ==> (forall s | s in pod.value.statuses :: s.running)
                         == (forall i | 0 <= i < |pod.value.statuses| :: pod.value.statuses[i].running);
  }

  /** Any container that does not run makes a Sidekick Degraded that has neither succeeded nor failed. */
  lemma WaitingContainerDegrades(spec: SidekickSpec, status: Status, pod: Pod, i: nat)
    requires i < |pod.statuses| && !pod.statuses[i].running
    ensures var phase := Calculate(spec, status, Some(pod)).phase;
            phase == SkDegraded || (spec.policy != Always && (phase == SkFailed || phase == SkSucceeded))
  {
    PhaseMeaning(spec, status, Some(pod));
  }

  /** While the sums fit: without success, a Sidekick under a policy other than Always has failed if and
      only if the failures and restarts on its books exceed its limit, which is 0 if it gives none. */
  lemma FailedIff(spec: SidekickSpec, status: Status, pod: Option<Pod>)
    requires spec.policy != Always && !Successful(status, pod)
    requires Fits(status, pod, 1) && RestartsBehind(status, pod)
    ensures var st := Calculate(spec, status, pod);
            st.phase == SkFailed
            <==> ExactTotal(st.failures, st.restarts) > (match spec.backoffLimit case None => 0 case Some(n) => n)
  {
    OverLimitExact(spec, status, pod);
  }

  /** A live pod that has failed is marked, unless the policy is not Never and its mark takes the total over
      the limit; then its entry is false. Its restarts are on the books. */
  lemma FailureEntry(spec: SidekickSpec, status: Status, pod: Pod)
    requires pod.phase == PodFailed && !pod.deleting
    requires Fits(status, Some(pod), 1) && RestartsBehind(status, Some(pod))
    ensures var st := Calculate(spec, status, Some(pod));
            var limit := match spec.backoffLimit case None => 0 case Some(n) => n;
            && pod.uid in st.failures && pod.uid in st.restarts && st.restarts[pod.uid] == ExactRestarts(pod)
            && (st.failures[pod.uid] <==>
                  spec.policy == Never || ExactTotal(status.failures[pod.uid := true], st.restarts) <= limit)
  {
    OverLimitExact(spec, status, Some(pod));
  }
}
