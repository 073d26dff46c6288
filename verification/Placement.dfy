/**
 Where a distributed sidekick pod goes: the choice of the leader among ManifestWorks by selector, and
 the creation of a ManifestWork beside it.
 */
module Placement {
  import opened Kube
  import opened Sorting
  import opened Leader
  import opened PodBuilder
  import opened Server
  import opened Wiring
  import opened Distributed

  // ------------------------------------------------------------------ choosing the leader

  /** The node that the feedback reports, the last value winning. */
  function NodeOf(values: seq<Feedback>, node: string): string {
    if values == [] then node
    else NodeOf(values[1..], if values[0].NodeNameValue? && values[0].node.Some? then values[0].node.value else node)
  }

  predicate GivesNode(v: Feedback) { v.NodeNameValue? && v.node.Some? }

  /** n is the node of the last value that gives one, or empty if none does. */
  predicate ReportsNode(values: seq<Feedback>, n: string) {
    || (exists i | 0 <= i < |values| ::
          values[i] == NodeNameValue(Some(n)) && forall j | i < j < |values| :: !GivesNode(values[j]))
    || (n == "" && forall j | 0 <= j < |values| :: !GivesNode(values[j]))
  }

  lemma {:induction false} NodeByPosition(values: seq<Feedback>, node: string)
    ensures (forall j | 0 <= j < |values| :: !GivesNode(values[j])) ==> NodeOf(values, node) == node
    ensures (forall j | 0 <= j < |values| :: !GivesNode(values[j])) || ReportsNode(values, NodeOf(values, node))
  {
    if values != [] {
      var rest := values[1..];
      NodeByPosition(rest, if GivesNode(values[0]) then values[0].node.value else node);
      if forall j | 0 <= j < |rest| :: !GivesNode(rest[j]) {
        assert forall j | 0 < j < |values| :: values[j] == rest[j - 1];
      } else {
        var n := NodeOf(values, node);
        var i :| 0 <= i < |rest| && rest[i] == NodeNameValue(Some(n)) && forall j | i < j < |rest| ::
            !GivesNode(rest[j]);
        assert values[i + 1] == NodeNameValue(Some(n));
        assert forall j | i + 1 < j < |values| :: values[j] == rest[j - 1];
      }
    }
  }

  lemma NodeIsReported(values: seq<Feedback>)
    ensures ReportsNode(values, NodeOf(values, ""))
  {
    NodeByPosition(values, "");
  }

  const PRIMARY := RoleValue(Some("Primary"))

  /** The pod of a ManifestWork as a leader candidate: placed in the cluster of the ManifestWork, on
      the node its feedback reports. */
  function Placed(mw: ManifestWork): Candidate
    requires mw.pods != [] && mw.pods[0].Some? && mw.feedback != []
  {
    var pod := mw.pods[0].value;
    pod.(annotations := pod.annotations[KeyClusterName := Text(mw.namespace)],
         phase := GetPodPhase(PodStatusOf(mw)),
         spec := pod.spec.(node := NodeOf(mw.feedback[0], "")))
  }

  predicate Usable(mw: ManifestWork, primaryOnly: bool) {
    mw.pods != [] && mw.pods[0].Some? && mw.feedback != [] && (primaryOnly ==> PRIMARY in mw.feedback[0])
  }

  function Leaders(mws: seq<ManifestWork>, primaryOnly: bool): seq<Candidate> {
    if mws == [] then []
    else
      var n := |mws| - 1;
      Leaders(mws[..n], primaryOnly) + (if Usable(mws[n], primaryOnly) then [Placed(mws[n])] else [])
  }

  /** findDistributedLeader by selector, then getDistributedLeader; None stands for NotFound. */
  function ChooseLeader(spec: LeaderSpec, mws: seq<ManifestWork>, primaryOnly: bool): (r: Option<Candidate>)
    ensures r.Some? ==> r.value in Leaders(mws, primaryOnly)
  {
    ChooseFrom(spec, Leaders(mws, primaryOnly))
  }

  method ReadFeedback(values: seq<Feedback>, primaryOnly: bool) returns (primary: bool, node: string)
    ensures primary <==> (primaryOnly ==> RoleValue(Some("Primary")) in values)
    ensures node == NodeOf(values, "") && ReportsNode(values, node)
  {
    NodeIsReported(values);
    primary, node := !primaryOnly, "";
    for j := 0 to |values|
      invariant primary <==> (primaryOnly ==> PRIMARY in values[..j])
      invariant NodeOf(values, "") == NodeOf(values[j..], node)
    {
      assert values[j..][1..] == values[j + 1..] && values[..j + 1] == values[..j] + [values[j]];
      match values[j]
      case RoleValue(Some(role)) =>
        if role == "Primary" {
          primary := true;
        }
      case NodeNameValue(Some(n)) => node := n;
      case _ =>
    }
    assert values[..|values|] == values;
  }

  method ChooseLeaderLoop(spec: LeaderSpec, mws: seq<ManifestWork>, primaryOnly: bool) returns (r: Option<Candidate>)
    ensures r == ChooseLeader(spec, mws, primaryOnly)
  {
    var leaders: seq<Candidate> := [];
    for i := 0 to |mws|
      invariant leaders == Leaders(mws[..i], primaryOnly)
    {
      assert mws[..i + 1][..i] == mws[..i];
      var mw := mws[i];
      if |mw.pods| == 0 || mw.pods[0].None? || |mw.feedback| == 0 {
        continue;
      }
      var pod := mw.pods[0].value;
      var phase := ExtractPodStatus(mw);
      var primary, node := ReadFeedback(mw.feedback[0], primaryOnly);
      pod := pod.(annotations := pod.annotations[KeyClusterName := Text(mw.namespace)]);
      pod := pod.(phase := GetPodPhase(phase), spec := pod.spec.(node := node));
      if primary {
        leaders := leaders + [pod];
      }
    }
    assert mws[..|mws|] == mws;
    if |leaders| == 0 {
      return None;
    } else if |leaders| == 1 {
      return Some(leaders[0]);
    }
    leaders := SortBy(PodLess, leaders);
    return Some(if spec.selection == PolicyFirst then leaders[0] else leaders[|leaders| - 1]);
  }

  /** This ManifestWork holds a pod first and reports on it, as primary where that is asked for. */
  predicate HoldsLeader(mw: ManifestWork, primaryOnly: bool) {
    && mw.pods != [] && mw.pods[0].Some? && mw.feedback != []
    && (primaryOnly ==> RoleValue(Some("Primary")) in mw.feedback[0])
  }

  /** A ManifestWork that this leader was read from: its pod, in its cluster, on the reported node. */
  predicate ReadFrom(leader: Candidate, mw: ManifestWork, mws: seq<ManifestWork>, primaryOnly: bool) {
    && mw in mws && HoldsLeader(mw, primaryOnly)
    && (var pod := mw.pods[0].value;
        && leader == pod.(annotations := leader.annotations, phase := leader.phase, spec := leader.spec)
        && leader.annotations == pod.annotations[KeyClusterName := Text(mw.namespace)]
        && leader.spec == pod.spec.(node := leader.spec.node) && ReportsNode(mw.feedback[0], leader.spec.node))
  }

  lemma PlacedIsReadFrom(mw: ManifestWork, mws: seq<ManifestWork>, primaryOnly: bool)
    requires mw in mws && Usable(mw, primaryOnly)
    ensures ReadFrom(Placed(mw), mw, mws, primaryOnly)
  {
    NodeIsReported(mw.feedback[0]);
  }

  lemma {:induction false} LeadersAreRead(mws: seq<ManifestWork>, primaryOnly: bool, leader: Candidate)
      returns (mw: ManifestWork)
    requires leader in Leaders(mws, primaryOnly)
    ensures ReadFrom(leader, mw, mws, primaryOnly) && Usable(mw, primaryOnly) && leader == Placed(mw)
  {
    var n := |mws| - 1;
    if leader in Leaders(mws[..n], primaryOnly) {
      mw := LeadersAreRead(mws[..n], primaryOnly, leader);
    } else {
      mw := mws[n];
      PlacedIsReadFrom(mw, mws, primaryOnly);
    }
  }

  /** There is a leader if and only if some ManifestWork holds one. */
  lemma LeaderExistsIff(spec: LeaderSpec, mws: seq<ManifestWork>, primaryOnly: bool)
    ensures ChooseLeader(spec, mws, primaryOnly).Some? <==> exists mw | mw in mws :: HoldsLeader(mw, primaryOnly)
  {
    if ChooseLeader(spec, mws, primaryOnly).Some? {
      var mw := LeadersAreRead(mws, primaryOnly, ChooseLeader(spec, mws, primaryOnly).value);
    }
    if mw :| mw in mws && HoldsLeader(mw, primaryOnly) {
      UsableAreLeaders(mws, primaryOnly, mw);
    }
  }

  lemma {:induction false} UsableAreLeaders(mws: seq<ManifestWork>, primaryOnly: bool, mw: ManifestWork)
    requires mw in mws && Usable(mw, primaryOnly)
    ensures Placed(mw) in Leaders(mws, primaryOnly)
  {
    var n := |mws| - 1;
    if mw != mws[n] {
      UsableAreLeaders(mws[..n], primaryOnly, mw);
    }
  }

  lemma SameLeaders(mws: seq<ManifestWork>, mws': seq<ManifestWork>, primaryOnly: bool)
    requires multiset(mws) == multiset(mws')
    ensures forall p | p in Leaders(mws, primaryOnly) :: p in Leaders(mws', primaryOnly)
  {
    SameElements(mws, mws');
    forall p | p in Leaders(mws, primaryOnly) ensures p in Leaders(mws', primaryOnly) {
      var mw := LeadersAreRead(mws, primaryOnly, p);
      UsableAreLeaders(mws', primaryOnly, mw);
    }
  }

  /** Where the comparator is an order the leader is an extreme one of the usable ManifestWorks' pods, and if it alone
      is extreme, the order in which the ManifestWorks are listed does not matter. */
  lemma DistributedLeaderIsExtreme(spec: LeaderSpec, mws: seq<ManifestWork>, mws': seq<ManifestWork>, primaryOnly: bool)
    requires Coherent(Leaders(mws, primaryOnly)) && Leaders(mws, primaryOnly) != [] && multiset(mws) == multiset(mws')
    ensures ChooseLeader(spec, mws, primaryOnly).Some?
    ensures Extreme(spec, Leaders(mws, primaryOnly), ChooseLeader(spec, mws, primaryOnly).value)
    ensures OneExtreme(spec, Leaders(mws, primaryOnly))
            ==> ChooseLeader(spec, mws, primaryOnly) == ChooseLeader(spec, mws', primaryOnly)
  {
    var a, b := Leaders(mws, primaryOnly), Leaders(mws', primaryOnly);
    SameLeaders(mws, mws', primaryOnly);
    SameLeaders(mws', mws, primaryOnly);
    assert a[0] in b;
    ChosenIsExtreme(spec, a);
    ChosenIsExtreme(spec, b);
    SameExtremes(spec, a, b, ChooseFrom(spec, b).value);
  }

  // ------------------------------------------------------------------ creating the ManifestWork

  /** The Sidekick's annotations overridden by the leader's, then stamped. */
  function MergedAnnotations(sk: Sidekick, leader: Candidate): Annotations {
    (sk.annotations + leader.annotations)[KeyHash := HashOf(sk)][KeyLeader := Text(leader.name)]
  }

  /** The ManifestWork that is created: where it lies, its labels, and the pod in it. */
  datatype Work = Work(namespace: Value, labels: map<string, string>, annotations: Annotations, spec: PodSpec)

  const SIDEKICK_LABEL := "sidekick-name"

  /** ensurePodManifestWork: it goes to the namespace that the pod's annotations name. */
  function PlaceWork(name: string, sk: Sidekick, annotations: Annotations, spec: PodSpec): Result<Work> {
    var namespace := Lookup(annotations, KeyClusterName);
    if namespace == Text("") then Err("cluster name annotation is empty")
    else Ok(Work(namespace, sk.labels[SIDEKICK_LABEL := name], annotations, spec))
  }

  /** The creation tail of ReconcileDistributedSidekick. */
  function CreateWork(name: string, sk: Sidekick, leader: Candidate, keys: Keys, address: Result<string>)
      : Result<Work>
  {
    match Wire(sk.spec.containers, keys, address)
    case Err(e) => Err(e)
    case Ok(wired) =>
      match BuildSpec(sk.spec.(containers := wired), leader)
      case Err(e) => Err(e)
      case Ok(spec) => PlaceWork(name, sk, MergedAnnotations(sk, leader), spec)
  }

  method CreateManifestWork(name: string, sk: Sidekick, leader: Candidate, keys: Keys, address: Result<string>)
      returns (r: Result<Work>)
    ensures r == CreateWork(name, sk, leader, keys, address)
  {
    var merged := sk.annotations + leader.annotations;
    var inMemory := new SidekickSpecObject(sk.spec.containers);
    var wired := inMemory.WireArchiver(keys, address);
    if wired.Err? {
      return Err(wired.message);
    }
    merged := merged[KeyHash := HashOf(sk)];
    merged := merged[KeyLeader := Text(leader.name)];
    var spec := BuildSpecLoop(sk.spec.(containers := inMemory.containers), leader);
    if spec.Err? {
      return Err(spec.message);
    }
    r := PlaceWork(name, sk, merged, spec.value);
  }

  // ------------------------------------------------------------------ co-location

  /** Wiring changes no mounts, so it does not change which mounts can be resolved. */
  lemma WiringKeepsMounts(leader: Candidate, cs: seq<Container>, keys: Keys, address: Result<string>)
    requires Wire(cs, keys, address).Ok?
    ensures AllResolvable(leader, Wire(cs, keys, address).value) <==> AllResolvable(leader, cs)
  {
    var i := Archiver(cs).value;
    var wired := Wire(cs, keys, address).value;
    assert cs == wired[i := cs[i]];
    assert wired[i].mounts == cs[i].mounts;
  }

  /** Creation succeeds exactly when there is an archiver container, the server address is known, every
      mount can be resolved, and the annotations name a cluster. */
  lemma CreateWorkIff(name: string, sk: Sidekick, leader: Candidate, keys: Keys, address: Result<string>)
    requires keys.snapshot != ""
    ensures CreateWork(name, sk, leader, keys, address).Ok? <==>
            && Archiver(sk.spec.containers).Some? && address.Ok?
            && AllResolvable(leader, sk.spec.containers) && AllResolvable(leader, sk.spec.initContainers)
            && Lookup(MergedAnnotations(sk, leader), KeyClusterName) != Text("")
  {
    var cs := sk.spec.containers;
    if Archiver(cs).Some? && address.Ok? {
      WiredEnvMeaning(cs[Archiver(cs).value].env, keys, address.value, EnvLeaderName);
      WiringKeepsMounts(leader, cs, keys, address);
      BuildMeaning(sk.spec.(containers := Wire(cs, keys, address).value), leader);
    }
  }

  lemma WorkFollowsLeader(name: string, sk: Sidekick, leader: Candidate, keys: Keys, address: Result<string>)
    requires KeyClusterName in leader.annotations && CreateWork(name, sk, leader, keys, address).Ok?
    ensures var work := CreateWork(name, sk, leader, keys, address).value;
            && work.namespace == leader.annotations[KeyClusterName]
            && work.spec.node == leader.spec.node
            && Lookup(work.annotations, KeyLeader) == Text(leader.name)
            && Lookup(work.annotations, KeyHash) == HashOf(sk)
            && work.labels == sk.labels["sidekick-name" := name]
            && forall k | k != KeyHash && k != KeyLeader ::
                 Lookup(work.annotations, k)
                 == if k in leader.annotations then leader.annotations[k] else Lookup(sk.annotations, k)
  {
    BuildMeaning(sk.spec.(containers := Wire(sk.spec.containers, keys, address).value), leader);
  }

  /** Co-location across clusters: the ManifestWork created for the chosen leader lies in the namespace
      of the ManifestWork that the leader was read from, and its pod carries that leader's node and
      name, whatever annotations the Sidekick itself has. */
  lemma CoLocated(name: string, sk: Sidekick, mws: seq<ManifestWork>, primaryOnly: bool, keys: Keys,
      address: Result<string>)
      returns (mw: ManifestWork)
    requires ChooseLeader(sk.spec.leader, mws, primaryOnly).Some?
    requires CreateWork(name, sk, ChooseLeader(sk.spec.leader, mws, primaryOnly).value, keys, address).Ok?
    ensures ReadFrom(ChooseLeader(sk.spec.leader, mws, primaryOnly).value, mw, mws, primaryOnly)
    ensures var work := CreateWork(name, sk, ChooseLeader(sk.spec.leader, mws, primaryOnly).value, keys, address).value;
            && work.namespace == Text(mw.namespace)
            && ReportsNode(mw.feedback[0], work.spec.node)
            && Lookup(work.annotations, KeyLeader) == Text(mw.pods[0].value.name)
  {
    var leader := ChooseLeader(sk.spec.leader, mws, primaryOnly).value;
    mw := LeadersAreRead(mws, primaryOnly, leader);
    WorkFollowsLeader(name, sk, leader, keys, address);
  }
}
