/**
 The distributed twin of the phase calculation. The sidekick pod runs in another cluster and is
 known only through the status feedback of its ManifestWork.
 */
module Distributed {
  import opened Kube
  import opened Backoff
  import opened Phase

  /** Pod phases as the strings of the feedback. */
  datatype PhaseName = NamePending | NameRunning | NameSucceeded | NameFailed | NameUnknown | NameOther(text: string)

  /** One feedback value. A missing string is None, and so are missing or malformed restart counts. */
  datatype Feedback =
    | PodPhaseValue(phase: Option<PhaseName>)
    | RestartsValue(init: bool, counts: Option<seq<Int32>>)
    | NodeNameValue(node: Option<string>)
    | RoleValue(role: Option<string>)
    | OtherValue(name: string)

  /** A ManifestWork: the pods in its workload (None: the manifest is no pod) and its feedback. */
  datatype ManifestWork = ManifestWork(
    uid: Uid, namespace: string, deleting: bool, pods: seq<Option<Candidate>>, feedback: seq<seq<Feedback>>)

  /** The pod phases that a list of values reports, in order. */
  function PhasesIn(values: seq<Feedback>): seq<PhaseName> {
    if values == [] then []
    else
      var rest := PhasesIn(values[1..]);
      if values[0].PodPhaseValue? && values[0].phase.Some? then [values[0].phase.value] + rest else rest
  }

  function AllPhases(feedback: seq<seq<Feedback>>): seq<PhaseName> {
    if feedback == [] then [] else PhasesIn(feedback[0]) + AllPhases(feedback[1..])
  }

  function LastOr(phases: seq<PhaseName>, default: PhaseName): PhaseName {
    if phases == [] then default else phases[|phases| - 1]
  }

  /** extractPodStatusFromMW: the last phase that the first manifest reports. */
  function PodStatusOf(mw: ManifestWork): PhaseName {
    if mw.feedback == [] then NameOther("") else LastOr(PhasesIn(mw.feedback[0]), NameOther(""))
  }

  method ExtractPodStatus(mw: ManifestWork) returns (phase: PhaseName)
    ensures phase == PodStatusOf(mw)
  {
    phase := NameOther("");
    if |mw.feedback| == 0 {
      return;
    }
    var values := mw.feedback[0];
    for i := 0 to |values|
      invariant LastOr(PhasesIn(values), NameOther("")) == LastOr(PhasesIn(values[i..]), phase)
    {
      match values[i]
      case PodPhaseValue(Some(p)) => phase := p;
      case _ =>
      assert values[i..][1..] == values[i + 1..];
    }
  }

  function GetPodPhase(name: PhaseName): PodPhase {
    match name
    case NamePending => PodPending
    case NameRunning => PodRunning
    case NameSucceeded => PodSucceeded
    case NameFailed => PodFailed
    case NameUnknown => PodUnknown
    case NameOther(_) => PodUnknown
  }

  // ------------------------------------------------------------------ restarts

  function SumCounts(s: seq<Int32>): int {
    if s == [] then 0 else SumCounts(s[..|s| - 1]) + s[|s| - 1]
  }

  /** The restart counts that a list of values reports for init or for ordinary containers. */
  function Counts(values: seq<Feedback>, init: bool): seq<Int32> {
    if values == [] then []
    else
      var rest := Counts(values[1..], init);
      if values[0].RestartsValue? && values[0].init == init && values[0].counts.Some?
      then values[0].counts.value + rest else rest
  }

  function Reported(values: seq<Feedback>): int {
    SumCounts(Counts(values, false)) + SumCounts(Counts(values, true))
  }

  function ReportedRestarts(mw: ManifestWork): Int32 {
    if mw.feedback == [] then 0 else Wrap32(Reported(mw.feedback[0]))
  }

  lemma {:induction false} SumCountsConcat(a: seq<Int32>, b: seq<Int32>)
    ensures SumCounts(a + b) == SumCounts(a) + SumCounts(b)
  {
    if b == [] {
      assert a + b == a;
    } else {
      SumCountsConcat(a, b[..|b| - 1]);
      assert (a + b)[..|a + b| - 1] == a + b[..|b| - 1];
    }
  }

  lemma ReportedHead(values: seq<Feedback>)
    requires values != []
    ensures Reported(values) == Reported(values[1..])
                                + (if values[0].RestartsValue? && values[0].counts.Some?
                                   then SumCounts(values[0].counts.value) else 0)
  {
    if values[0].RestartsValue? && values[0].counts.Some? {
      SumCountsConcat(values[0].counts.value, Counts(values[1..], values[0].init));
      assert Counts(values, !values[0].init) == Counts(values[1..], !values[0].init);
    } else {
      assert forall init :: Counts(values, init) == Counts(values[1..], init);
    }
  }

  method ExtractRestartCount(counts: Option<seq<Int32>>) returns (count: Int32)
    ensures count == Wrap32(if counts.Some? then SumCounts(counts.value) else 0)
  {
    count := 0;
    if counts.Some? {
      var s := counts.value;
      for i := 0 to |s|
        invariant count == Wrap32(SumCounts(s[..i]))
      {
        assert s[..i + 1][..i] == s[..i];
        count := AddWrapped(count, s[i], SumCounts(s[..i]));
      }
      assert s[..|s|] == s;
    }
  }

  method GetDistributedContainerRestartCounts(mw: ManifestWork) returns (count: Int32)
    ensures count == ReportedRestarts(mw)
  {
    count := 0;
    if |mw.feedback| == 0 {
      return;
    }
    var values := mw.feedback[0];
    ghost var exact := 0;
    for i := 0 to |values|
      invariant exact + Reported(values[i..]) == Reported(values)
      invariant count == Wrap32(exact)
    {
      ReportedHead(values[i..]);
      assert values[i..][1..] == values[i + 1..];
      if values[i].RestartsValue? && values[i].counts.Some? {
        var more := ExtractRestartCount(values[i].counts);
        ghost var sum := SumCounts(values[i].counts.value);
        count := AddWrapped(count, more, exact);
        WrapAdd(sum, exact);
        exact := exact + sum;
      }
    }
  }

  // ------------------------------------------------------------------ phase

  /** The first phase reported anywhere is Running, and the ManifestWork is not being deleted. */
  predicate Running(mw: Option<ManifestWork>) {
    && mw.Some? && !mw.value.deleting && AllPhases(mw.value.feedback) != []
    && AllPhases(mw.value.feedback)[0] == NameRunning
  }

  method IsDistributedSidekickPodRunning(mw: Option<ManifestWork>) returns (r: bool)
    ensures r == Running(mw)
  {
    if mw.None? || mw.value.deleting {
      return false;
    }
    var feedback := mw.value.feedback;
    for i := 0 to |feedback|
      invariant AllPhases(feedback) == AllPhases(feedback[i..])
    {
      var values := feedback[i];
      for j := 0 to |values|
        invariant PhasesIn(values) == PhasesIn(values[j..])
      {
        if values[j].PodPhaseValue? && values[j].phase.Some? {
          return values[j].phase.value == NameRunning;
        }
        assert values[j..][1..] == values[j + 1..];
      }
      assert feedback[i..][1..] == feedback[i + 1..];
    }
    return false;
  }

  ghost function DistributedPhaseOf(spec: SidekickSpec, status: Status, mw: Option<ManifestWork>): SidekickPhase {
    if spec.policy == Always then
      if Running(mw) then SkCurrent else SkDegraded
    else if status.phase == SkSucceeded then SkSucceeded
    else if mw.Some? && NameSucceeded in AllPhases(mw.value.feedback) then SkSucceeded
    else if OverLimit(spec, status) then SkFailed
    else if Running(mw) then SkCurrent
    else SkDegraded
  }

  method ReportsSuccess(feedback: seq<seq<Feedback>>) returns (r: bool)
    ensures r == (NameSucceeded in AllPhases(feedback))
  {
    for i := 0 to |feedback|
      invariant NameSucceeded in AllPhases(feedback) <==> NameSucceeded in AllPhases(feedback[i..])
    {
      var values := feedback[i];
      for j := 0 to |values|
        invariant NameSucceeded in PhasesIn(values) <==> NameSucceeded in PhasesIn(values[j..])
      {
        if values[j] == PodPhaseValue(Some(NameSucceeded)) {
          return true;
        }
        assert values[j..][1..] == values[j + 1..];
      }
      assert feedback[i..][1..] == feedback[i + 1..];
    }
    return false;
  }

  method GetDistributedSidekickPhase(spec: SidekickSpec, status: Status, mw: Option<ManifestWork>)
      returns (phase: SidekickPhase)
    ensures phase == DistributedPhaseOf(spec, status, mw)
  {
    var running := IsDistributedSidekickPodRunning(mw);
    if spec.policy == Always {
      return if !running then SkDegraded else SkCurrent;
    }
    if status.phase == SkSucceeded {
      return SkSucceeded;
    }
    if mw.Some? {
      var succeeded := ReportsSuccess(mw.value.feedback);
      if succeeded {
        return SkSucceeded;
      }
    }
    var total := GetTotalBackOffCounts(status.failures, status.restarts);
    if total > BackoffLimit(spec) {
      return SkFailed;
    }
    return if !running then SkDegraded else SkCurrent;
  }

  ghost function DistributedObserve(spec: SidekickSpec, status: Status, mw: Option<ManifestWork>): Status {
    match mw
    case None => status
    case Some(m) =>
      var seen := status.(restarts := status.restarts[m.uid := ReportedRestarts(m)]);
      if PodStatusOf(m) == NameFailed && !m.deleting then
        var marked := seen.(failures := seen.failures[m.uid := true]);
        if spec.policy != Never && OverLimit(spec, marked)
        then seen.(failures := seen.failures[m.uid := false])
        else marked
      else seen
  }

  /** calculateDistributedSidekickPhase. */
  ghost function DistributedCalculate(spec: SidekickSpec, status: Status, mw: Option<ManifestWork>): Status {
    var seen := DistributedObserve(spec, status, mw);
    seen.(phase := DistributedPhaseOf(spec, seen, mw))
  }

  method CalculateDistributedSidekickPhase(spec: SidekickSpec, status0: Status, mw: Option<ManifestWork>)
      returns (status: Status)
    ensures status == DistributedCalculate(spec, status0, mw)
  {
    status := status0;
    if mw.Some? {
      var uid := mw.value.uid;
      var restarts := GetDistributedContainerRestartCounts(mw.value);
      status := status.(restarts := status.restarts[uid := restarts]);
      var phase := ExtractPodStatus(mw.value);
      if phase == NameFailed && !mw.value.deleting {
        status := status.(failures := status.failures[uid := true]);
        if spec.policy != Never {
          var total := GetTotalBackOffCounts(status.failures, status.restarts);
          if total > BackoffLimit(spec) {
            status := status.(failures := status.failures[uid := false]);
            assert status0.failures[uid := true][uid := false] == status0.failures[uid := false];
          }
        }
      }
    }
    var phase := GetDistributedSidekickPhase(spec, status, mw);
    status := status.(phase := phase);
  }

  // ------------------------------------------------------------------ by position

  predicate GivesPhase(v: Feedback) { v.PodPhaseValue? && v.phase.Some? }

  /** The last phase that the first manifest reports, or the empty string. */
  lemma {:induction false} LastPhase(values: seq<Feedback>, j: nat, default: PhaseName)
    requires j < |values| && GivesPhase(values[j]) && forall k | j < k < |values| :: !GivesPhase(values[k])
    ensures LastOr(PhasesIn(values), default) == values[j].phase.value
  {
    if j > 0 {
      LastPhase(values[1..], j - 1, if GivesPhase(values[0]) then values[0].phase.value else default);
    } else {
      NoPhase(values[1..]);
    }
  }

  lemma {:induction false} NoPhase(values: seq<Feedback>)
    requires forall k | 0 <= k < |values| :: !GivesPhase(values[k])
    ensures PhasesIn(values) == []
  {
    if values != [] {
      NoPhase(values[1..]);
    }
  }

  lemma StatusByPosition(mw: ManifestWork, j: nat)
    requires mw.feedback != []
    ensures var values := mw.feedback[0];
            && (j < |values| && GivesPhase(values[j]) && (forall k | j < k < |values| :: !GivesPhase(values[k])) ==>
                  PodStatusOf(mw) == values[j].phase.value)
            && ((forall k | 0 <= k < |values| :: !GivesPhase(values[k])) ==> PodStatusOf(mw) == NameOther(""))
  {
    var values := mw.feedback[0];
    if forall k | 0 <= k < |values| :: !GivesPhase(values[k]) {
      NoPhase(values);
    } else if j < |values| && GivesPhase(values[j]) && forall k | j < k < |values| :: !GivesPhase(values[k]) {
      LastPhase(values, j, NameOther(""));
    }
  }

  lemma {:induction false} FirstPhase(values: seq<Feedback>, j: nat)
    requires j < |values| && GivesPhase(values[j]) && forall k | 0 <= k < j :: !GivesPhase(values[k])
    ensures PhasesIn(values) != [] && PhasesIn(values)[0] == values[j].phase.value
  {
    if j > 0 {
      FirstPhase(values[1..], j - 1);
    }
  }

  /** The first phase reported anywhere decides whether the pod runs. */
  lemma {:induction false} FirstPhaseAnywhere(feedback: seq<seq<Feedback>>, i: nat, j: nat)
    requires i < |feedback| && j < |feedback[i]| && GivesPhase(feedback[i][j])
    requires forall k | 0 <= k < j :: !GivesPhase(feedback[i][k])
    requires forall h, k | 0 <= h < i && 0 <= k < |feedback[h]| :: !GivesPhase(feedback[h][k])
    ensures AllPhases(feedback) != [] && AllPhases(feedback)[0] == feedback[i][j].phase.value
  {
    if i == 0 {
      FirstPhase(feedback[0], j);
    } else {
      assert forall h | 0 <= h < |feedback[1..]| :: feedback[1..][h] == feedback[h + 1];
      NoPhase(feedback[0]);
      FirstPhaseAnywhere(feedback[1..], i - 1, j);
    }
  }

  lemma RunningByPosition(mw: ManifestWork, i: nat, j: nat)
    requires i < |mw.feedback| && j < |mw.feedback[i]| && GivesPhase(mw.feedback[i][j])
    requires forall k | 0 <= k < j :: !GivesPhase(mw.feedback[i][k])
    requires forall h, k | 0 <= h < i && 0 <= k < |mw.feedback[h]| :: !GivesPhase(mw.feedback[h][k])
    ensures Running(Some(mw)) <==> !mw.deleting && mw.feedback[i][j] == PodPhaseValue(Some(NameRunning))
  {
    FirstPhaseAnywhere(mw.feedback, i, j);
  }

  lemma {:induction false} PhasesByPosition(values: seq<Feedback>, p: PhaseName)
    ensures p in PhasesIn(values) <==> PodPhaseValue(Some(p)) in values
  {
    if values != [] {
      PhasesByPosition(values[1..], p);
    }
  }

  /** A phase counts as reported if any manifest reports it anywhere. */
  lemma {:induction false} ReportedByPosition(feedback: seq<seq<Feedback>>, p: PhaseName)
    ensures p in AllPhases(feedback) <==> exists values | values in feedback :: PodPhaseValue(Some(p)) in values
  {
    if feedback != [] {
      PhasesByPosition(feedback[0], p);
      ReportedByPosition(feedback[1..], p);
    }
  }

  // ------------------------------------------------------------------ refinement

  function RestartsOf(s: seq<ContainerStatus>): seq<Int32> {
    seq(|s|, i requires 0 <= i < |s| => s[i].restarts)
  }

  /** The feedback of one manifest with at most one pod phase says what the pod's status says, all
      of whose containers run. */
  predicate Mirrors(mw: ManifestWork, pod: Pod) {
    && pod.uid == mw.uid && pod.deleting == mw.deleting
    && |mw.feedback| == 1 && |PhasesIn(mw.feedback[0])| <= 1
    && pod.phase == GetPodPhase(PodStatusOf(mw))
    && RestartsOf(pod.statuses) == Counts(mw.feedback[0], false)
    && RestartsOf(pod.initStatuses) == Counts(mw.feedback[0], true)
    && forall s | s in pod.statuses :: s.running
  }

  lemma {:induction false} SumsAgree(s: seq<ContainerStatus>)
    ensures SumCounts(RestartsOf(s)) == SumStatuses(s)
  {
    if s != [] {
      SumsAgree(s[..|s| - 1]);
      assert RestartsOf(s)[..|s| - 1] == RestartsOf(s[..|s| - 1]);
    }
  }

  lemma MirroredRestarts(mw: ManifestWork, pod: Pod)
    requires Mirrors(mw, pod)
    ensures ReportedRestarts(mw) == RestartCount(pod)
  {
    SumsAgree(pod.statuses);
    SumsAgree(pod.initStatuses);
  }

  lemma MirroredPhase(mw: ManifestWork, pod: Pod)
    requires Mirrors(mw, pod)
    ensures PodStatusOf(mw) == NameFailed <==> pod.phase == PodFailed
    ensures Running(Some(mw)) <==> PodIsRunning(Some(pod))
    ensures NameSucceeded in AllPhases(mw.feedback) <==> pod.phase == PodSucceeded
  {
    assert AllPhases(mw.feedback) == PhasesIn(mw.feedback[0]);
  }

  /** The two calculations part exactly when a ManifestWork that is being deleted reports success for
      the first time under a policy other than Always: only the distributed one takes it. */
  lemma AgreeIff(spec: SidekickSpec, status: Status, mw: ManifestWork, pod: Pod)
    requires Mirrors(mw, pod)
    ensures DistributedCalculate(spec, status, Some(mw)) == Calculate(spec, status, Some(pod))
            <==> !(&& mw.deleting && PodStatusOf(mw) == NameSucceeded
                   && spec.policy != Always && status.phase != SkSucceeded)
  {
    MirroredRestarts(mw, pod);
    MirroredPhase(mw, pod);
    assert DistributedObserve(spec, status, Some(mw)) == Observe(spec, status, Some(pod));
  }

  /** The distributed phase refines the local one: for a ManifestWork that is not being deleted, phase,
      failures and restart counts are those of the local functions on the mirrored pod; and so they
      are when neither exists. */
  lemma DistributedRefinesLocal(spec: SidekickSpec, status: Status, mw: ManifestWork, pod: Pod)
    requires Mirrors(mw, pod) && !mw.deleting
    ensures DistributedCalculate(spec, status, Some(mw)) == Calculate(spec, status, Some(pod))
    ensures DistributedCalculate(spec, status, None) == Calculate(spec, status, None)
  {
    AgreeIff(spec, status, mw, pod);
  }
}
