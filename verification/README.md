# A Dafny model of the Sidekick operator

Sidekick is a Kubernetes operator that keeps one helper pod beside a leader pod, in the same cluster or,
through ManifestWorks, in another one; a command server next to it lets the helper report backups into
Snapshot objects. This project models its decision logic and proves what it keeps over whole runs.

| part | files |
|---|---|
| reconcile, as a function of the cluster and as a class that updates it | `Reconcile`, `Reconciler`, `Outcomes`, `Phase`, `Backoff` |
| runs of the operator against its environment | `Runs`, `RetryBound`, `Terminal`, `Convergence`, `CleanTermination` |
| where their theorems end, by concrete runs | `Scenarios`, `RetryLimits`, `Overflow`, `Churn`, `Ties`, `FailedPods` |
| leader choice, pod construction, hash stamping | `Leader`, `PodBuilder`, `Stamping` |
| the distributed twin | `Distributed`, `Placement` |
| tokens, replay cache, command server, log history, grants | `Terms`, `Token`, `ReplayCache`, `ReplayLimits`, `Server`, `ServerRuns`, `LogHistory`, `Wiring`, `Grants` |
| values and helpers | `Kube`, `Sums`, `Sets`, `Sorting` |

`dafny verify dfyconfig.toml` checks all of it. Methods carry the program's loops and updates and are proved
equal to functions; the theorems are about those functions.

## Hypotheses

- Reconciles of one Sidekick are serialised and atomic; the environment moves between them. API calls
  succeed unless the object is absent. A status patch replaces the whole status and fails on an absent object.
- A pod's restart counts never decrease, its phases Failed and Succeeded are final, a node once assigned
  stays, uids are fresh; nobody but the operator edits a pod's finalizer or annotations; reported statuses are
  those of the pod's own containers. An object without finalizers goes when it is deleted; the API server
  refuses a new finalizer on an object under deletion, and deletion raises the generation.
- Runs keep spec, labels and annotations of the Sidekick fixed; retry bound and terminal phases also assume
  that in each state the exact back-off total has room for two more in an int32 (`Overflow` shows what happens
  beyond).
- `GenerationHash` is an injective function of generation, labels and annotations without the last-applied
  one, as the vendored code computes it; it does not cover the spec.
- Encryption, hashes and key derivation are free constructors; JSON and base64 are implicit. A plaintext is
  claims or a text, never both. Random keys and nonces, clock readings and API-assigned uids are arguments.
- The cache's clock never goes back. Replay safety and the log totals also assume that `accept` reads the clock
  before the token's expiry, since it reads it later than `Verify` does (pkg/snapshotserver/grpc.go:148 and 254).
- Pod names contain no newline, which the name pattern's dot would not match.
- nil maps are empty maps, except in `Stamping`, where they are references that may be null.

## Findings

- Pods inherit the Sidekick's annotations. A Sidekick that itself carries the deletion-initiator key is
  retried without bound (`RetryLimits.RetryBoundIff`).
- A reconcile that terminates a Sidekick held by a foreign finalizer goes on and may create one more pod,
  whatever the limit (`RetryLimits.ForeignFinalizerBreaksBound`, `RetryLimits.RetryBoundIffOwned`).
- A back-off total beyond the int32 range counts as not exceeded. Then more pods are created than the bound
  allows (`Overflow.OverflowBreaksBound`), and for a limit that is not negative Failed lasts if and only if the
  limit is the largest int32 (`Overflow.FailedLastsIff`).
- Two requests with one token both succeed if and only if the second reaches the cache no earlier than the
  token's expiry (`ServerRuns.ReplayedIff`, `ServerRuns.LateTokenLogsTwice`).
- Undisturbed runs settle if and only if the leader has a node; otherwise they create pods without end
  (`Churn.ConvergesIff`).
- The leader comparator is a strict weak order if and only if no name without ordinal separates two names with
  ordinals against their order (`Leader.OrderIff`, `Leader.MixedNamesCycle`). Where it is one, the choice is
  determined if and only if one pod alone is extreme (`Leader.DeterminedIff`). Tied ordinals, as of two
  StatefulSets under one selector, make it depend on the order of the list
  (`Leader.TiedPodsFollowListOrder`), and relisting alone then creates and deletes pods without end and
  uncounted (`Ties.TiesChurn`).
- A comment promises a new pod when one has failed under Always (pkg/controllers/apps/sidekick.go:123-124). The
  code replaces a failed pod that otherwise matches only under Never (`FailedPods.FailedPodReplacedIff`,
  `FailedPods.FailedPodStays`).
- Trimming drops one entry an update, so a lowered limit never shortens a history (`LogHistory.NeverShrinks`).
- A ManifestWork under deletion that reports success makes the Sidekick Succeeded; the local path ignores such
  a pod (`Distributed.AgreeIff`).
- The comment on the cache claims at most request rate times TTL entries, but the server enforces no lifetime:
  the claim holds if and only if no token lives longer than the TTL (`ReplayLimits.SizeBoundIff`).

## Model

| member | source | states |
|---|---|---|
| `RetryBound.RetryBoundHolds` | pkg/controllers/apps/sidekick_controller.go:78-208 | in every run of a Sidekick whose policy is not Always, the pods ever created are at most max(0, backoffLimit + 1), or 1 if the Sidekick gives no limit, plus the operator's uncounted deletions (leader lost or changed, empty node) of pods not marked as failed, one more only if another controller's finalizer holds the Sidekick during deletion; and every lost pod is marked in FailureCount or is one of those deletions |
| `RetryBound.StepKeeps` | pkg/controllers/apps/sidekick.go:51-155 | every step of operator or environment keeps the books: each created pod but the present one is marked true or uncounted, a present pod that may vanish is on the books already, and the count stays within the bound |
| `RetryBound.RunKeeps` | pkg/controllers/apps/sidekick_controller.go:78-144 | the same over whole runs, by induction on the run |
| `RetryBound.RoomForOneMore` | pkg/controllers/apps/sidekick.go:184-205 | with no pod left and at most BackoffLimit failures recorded, one more pod still fits the bound |
| `RetryBound.CalculateKeeps` | pkg/controllers/apps/sidekick.go:86-120 | a phase calculation keeps the books although it may reset an entry to false, and leaves a non-final phase only with at most BackoffLimit marked pods |
| `RetryLimits.RetryBoundIff` | pkg/controllers/apps/pod.go:37-82 | for every policy other than Always and limit not negative, the bound holds on all runs in which nobody else holds the Sidekick during deletion if and only if its own annotations lack the deletion-initiator key, which its pods would inherit |
| `RetryLimits.RetryBoundIffOwned` | pkg/controllers/apps/sidekick_controller.go:323-344 | while no other controller takes or drops a finalizer, the bound holds on all runs if and only if the Sidekick does not carry that key, and no foreign finalizer either unless its limit exceeds the largest int32 minus 2, which totals in range never reach |
| `RetryLimits.UncountedRetries` | pkg/controllers/apps/pod.go:49-69 | with that key on the Sidekick any number of pods is created and lost without one of them counting |
| `RetryLimits.ForeignFinalizerBreaksBound` | pkg/controllers/apps/sidekick.go:33-49 | with a foreign finalizer the terminating reconcile goes on and creates one pod more: for every limit a run with BackoffLimit + 2 pods and no uncounted deletion, so the extra pod of the bound is needed |
| `Overflow.OverflowBreaksBound` | pkg/controllers/apps/sidekick.go:184-213 | without the hypothesis on the sums every Sidekick with a container, a policy other than Always and a limit not negative has a legal run over the bound: one container restarts as often as an int32 can tell, and the next failure makes the total negative |
| `Overflow.FailedLastsIff` | pkg/controllers/apps/sidekick.go:146-150 | without the hypothesis on the sums, Failed lasts on all legal runs if and only if the limit is the largest int32, and then because it is never reached |
| `Overflow.OverflowLeavesFailed` | pkg/controllers/apps/sidekick.go:59-111 | a legal run in which a Failed Sidekick becomes Degraded again: the operator fails the pod, and counting that failure wraps the total |
| `Runs.StepKeepsBase` | pkg/controllers/apps/sidekick_controller.go:78-208 | uids in the two status maps come from created pods only, and recorded restart counts never exceed the pod's own |
| `Terminal.TerminalPhasesAbsorb` | pkg/controllers/apps/sidekick.go:51-155 | after any run that reaches Failed or Succeeded under a policy other than Always, every continuation stays in the two, keeps Succeeded, and creates no pod |
| `Terminal.StepSound` | pkg/controllers/apps/sidekick.go:86-155 | each step keeps the invariant behind it: a live pod is marked only if it failed, and a Failed Sidekick is over its limit, under a policy other than Never even without the entry of its live pod |
| `Terminal.CalculateSound` | pkg/controllers/apps/sidekick.go:86-155 | a phase calculation moves the phase only forward, also when it resets the pod's entry to false |
| `Terminal.SettledForever` | pkg/controllers/apps/sidekick.go:59-83 | the absorbing half for every continuation of a settled history |
| `Convergence.ThreeRoundsSuffice` | pkg/controllers/apps/sidekick_controller.go:83-208 | under Always, while the leader keeps name and node and whatever else the candidates do, three reconciles from any state, terminating pods vanishing in between, reach a live pod that needs no recreation |
| `Convergence.CalmRunsConverge` | pkg/controllers/apps/sidekick_controller.go:83-208 | in every run in which the leader keeps name and node and nobody deletes anything, the candidate list changing freely, the rank never rises, a matching pod is neither deleted nor replaced, and at most one pod is created |
| `Churn.ConvergesIff` | pkg/controllers/apps/sidekick_controller.go:146-179 | such runs, from any state, create at most one pod if and only if the leader has a node |
| `Churn.Churns` | pkg/controllers/apps/sidekick_controller.go:167-179 | with a leader that has no node they create any number of pods |
| `Convergence.ReconcileApproaches` | pkg/controllers/apps/sidekick_controller.go:78-144 | one reconcile by rank: a matching pod is untouched, an absent one created to match, a stale one deleted, a terminating one loses its finalizer |
| `FailedPods.FailedPodStays` | pkg/controllers/apps/sidekick_controller.go:146-179 | under Always a failed pod that otherwise matches is, in every undisturbed run, the same pod for ever, still failed and never deleted |
| `FailedPods.FailedPodReplacedIff` | pkg/controllers/apps/sidekick_controller.go:146-179 | a reconcile deletes such a pod if and only if the policy is Never and the Sidekick has neither failed nor succeeded |
| `Convergence.MatchingSurvivesIff` | pkg/controllers/apps/sidekick_controller.go:146-153 | a matching pod keeps matching through every move of kubelet and scheduler if and only if the leader has a node |
| `Convergence.StatusReflectsPod` | pkg/controllers/apps/sidekick_controller.go:167-179 | what a reconcile of a matching pod leaves in the status: pod phase, leader, generation, Current exactly when all containers run, restart count |
| `CleanTermination.CleanRun` | pkg/controllers/apps/sidekick_controller.go:323-344 | after deletion of a Sidekick held by the operator alone: no pod is created, its status (every failure entry) is untouched, and after two reconciles the Sidekick is gone and its pod terminates without the finalizer |
| `CleanTermination.StepWindsDown` | pkg/controllers/apps/pod.go:37-94 | each step keeps the doomed state, changes no failure entry, and each reconcile removes one of the remaining finalizers, also when the Sidekick is gone |
| `CleanTermination.DeletionDooms` | pkg/controllers/apps/sidekick.go:33-38 | deleting a Sidekick that nobody else holds leads into that state |
| `CleanTermination.TerminatesCleanly` | pkg/controllers/apps/sidekick_controller.go:323-344 | all of this for every legal run from the start of life, whatever the policy, followed by the deletion and any continuation |
| `CleanTermination.RunHeld` | pkg/controllers/apps/sidekick_controller.go:181-208 | on every legal run a live pod carries the finalizer, and so does a Sidekick with a pod |
| `Reconciler.SidekickReconciler.Reconcile` | pkg/controllers/apps/sidekick_controller.go:78-144 | the imperative reconcile leaves exactly the state that the function on cluster states gives |
| `Outcomes.ReconcileBegins` | pkg/controllers/apps/sidekick_controller.go:78-107 | field by field what comes first: a terminating pod loses the finalizer and is counted if nobody of the operator's deleted it; a Sidekick under deletion takes its pod along, loses the finalizer and goes unless somebody else holds it; a live one gets the finalizer |
| `Outcomes.DeletedMeaning` | pkg/controllers/apps/sidekick_controller.go:155-179 | whenever a reconcile deletes the pod, the status has no leader and no pod phase and the present generation, phase and restarts are those calculated, and of the failure entries only that of a pod moved to another node is new; the pod carries the operator's mark and is being deleted |
| `Outcomes.DropsOrKeeps` | pkg/controllers/apps/sidekick_controller.go:115-153 | with a pod and in no final phase: deleted if and only if there is no leader, another one than the status names, or a pod whose hash, leader, node or failure under Never does not fit; otherwise the status shows its phase |
| `Outcomes.MakesOrWaits` | pkg/controllers/apps/sidekick_controller.go:181-208 | without a pod and in no final phase: created if and only if there is a leader that resolves every name-only mount; then annotations, stamps, finalizer, node and status of the new pod |
| `Outcomes.StopsWhenEnded` | pkg/controllers/apps/sidekick.go:59-83 | in a final phase the calculated status is stored and a running pod of a failed Sidekick is failed; nothing else happens |
| `Reconciler.SidekickReconciler.Continue` | pkg/controllers/apps/sidekick_controller.go:107-143 | the part after the finalizer: phase, leader, deletion, synchronisation or creation |
| `Reconciler.SidekickReconciler.RemovePodFinalizerIfMarkedForDeletion` | pkg/controllers/apps/pod.go:37-94 | an external deletion is counted unless the Sidekick is gone or going; then the finalizer goes, and the call says whether it did |
| `Reconciler.SidekickReconciler.DeletePod` | pkg/controllers/apps/pod.go:96-117 | the pod carries the deletion-initiator annotation and is being deleted; nothing else changes |
| `Reconciler.SidekickReconciler.DeletePodAndReset` | pkg/controllers/apps/sidekick_controller.go:155-165 | the pod is marked deleted, and leader and pod phase are cleared in the status |
| `Reconciler.SidekickReconciler.SyncPod` | pkg/controllers/apps/sidekick_controller.go:167-179 | a stale pod is deleted, a moved one is counted first; otherwise the status follows the pod |
| `Reconciler.SidekickReconciler.CreatePod` | pkg/controllers/apps/sidekick_controller.go:181-208 | a pod with the finalizer, the stamps and the leader's node is stored, or nothing if a mount cannot be resolved |
| `Reconciler.SidekickReconciler.UpdateSidekickPhase` | pkg/controllers/apps/sidekick.go:51-84 | the calculated status is stored, a Failed Sidekick fails its running pod, and the call stops exactly in the two final phases |
| `Reconciler.SidekickReconciler.UpdateSidekickStatus` | pkg/controllers/apps/sidekick.go:175-182 | the status is replaced wholesale, and the call fails on an absent object |
| `Phase.CalculateSidekickPhase` | pkg/controllers/apps/sidekick.go:86-120 | the two maps and the phase after a look at the pod |
| `Phase.FailedIff` | pkg/controllers/apps/sidekick.go:146-150 | while the sums fit and without success, under a policy other than Always: Failed if and only if failures and restarts on the books exceed the given limit, or 0 if none is given |
| `Phase.PhaseMeaning` | pkg/controllers/apps/sidekick.go:122-155 | Succeeded if and only if success was recorded or the live pod reports it; Current or Degraded says whether the pod is live and Running with every container running |
| `Phase.WaitingContainerDegrades` | pkg/controllers/apps/sidekick.go:157-173 | any container that does not run makes a Sidekick Degraded that has neither failed nor succeeded |
| `Phase.FailureEntry` | pkg/controllers/apps/sidekick.go:99-111 | a live failed pod is marked, unless the policy is not Never and its mark takes the total over the limit; its restarts are recorded |
| `Phase.GetSidekickPhase` | pkg/controllers/apps/sidekick.go:122-155 | the phase as a function of policy, status and pod |
| `Phase.IsSidekickPodRunning` | pkg/controllers/apps/sidekick.go:157-173 | true exactly for an existing, undeleted Running pod all of whose containers run |
| `Phase.OverLimitExact` | pkg/controllers/apps/sidekick.go:184-213 | while the sums fit in an int32, the comparison with the limit is the mathematical one |
| `Phase.OverLimitIff` | pkg/controllers/apps/sidekick.go:146-150 | short of 2^32 the limit counts as exceeded exactly when the true total exceeds it and still fits in an int32 |
| `Phase.CalculateShape` | pkg/controllers/apps/sidekick.go:99-111 | a calculation writes no entry but those of its own pod; all others keep their values |
| `Backoff.GetTotalBackOffCounts` | pkg/controllers/apps/sidekick.go:184-195 | the truncated sum of the number of true entries and all restart counts |
| `Backoff.GetFailureCount` | pkg/controllers/apps/sidekick.go:197-205 | the number of true entries, in whatever order the map is visited |
| `Backoff.GetTotalContainerRestartCounts` | pkg/controllers/apps/sidekick.go:207-213 | the sum of all values, in whatever order the map is visited |
| `Backoff.GetContainerRestartCounts` | pkg/controllers/apps/pod.go:119-128 | the restarts of containers and init containers together |
| `Backoff.TotalExactIff` | pkg/controllers/apps/sidekick.go:184-213 | the 32-bit total is exact if and only if the mathematical one fits |
| `Leader.LeaderIsExtreme` | pkg/controllers/apps/sidekick_controller.go:240-267 | wherever the comparator is an order, no other selected and Running candidate comes before the leader under First or after it under any other policy, and there is no leader exactly when there is no such candidate |
| `Leader.OrderIff` | pkg/controllers/apps/sidekick_controller.go:253-262 | the comparator is a strict weak order on a list if and only if no name without ordinal separates two names with ordinals against their order; in particular if all names have an ordinal or none has |
| `Leader.DeterminedIff` | pkg/controllers/apps/sidekick_controller.go:253-266 | wherever the comparator is an order, every result that the contract of sort.Slice allows leads to the same choice if and only if one pod alone is extreme |
| `Leader.MemberLeader` | pkg/controllers/apps/sidekick_controller.go:240-267 | for pods named base-n: the Running pod with the least ordinal under First, the greatest under any other policy, for every permutation of the list |
| `Leader.TiedPodsFollowListOrder` | pkg/controllers/apps/sidekick_controller.go:253-266 | two Running pods of which neither comes before the other, such as a-1 and b-1, are chosen by their place in the list |
| `Leader.TieExample` | pkg/controllers/apps/sidekick_controller.go:253-262 | a-1 and b-1 are such a tie |
| `Ties.TiesChurn` | pkg/controllers/apps/sidekick_controller.go:115-143 | with two tied candidates, lists of the same two in changing order alone make the operator create and delete any number of pods, all of them uncounted, under every limit |
| `Leader.LeaderIgnoresOrder` | pkg/controllers/apps/sidekick_controller.go:240-267 | wherever the comparator is an order and one pod alone is extreme, the choice is the same for every permutation of the list |
| `Leader.MembersAreOrdered` | pkg/controllers/apps/sidekick_controller.go:253-262 | on names base-n the ordinal is n and the comparator is a strict total order, that of the ordinals |
| `Leader.OrdinalOfMember` | pkg/controllers/apps/sidekick_controller.go:210-211 | the ordinal that the pattern and the integer parser give for base-n is n, saturating at the int64 maximum |
| `Leader.SubmatchIsGreedy` | pkg/controllers/apps/sidekick_controller.go:211 | the group found is that of the match with the rightmost dash and all its digits; it is absent exactly when the pattern matches nowhere |
| `Leader.ParseDecimal` | pkg/controllers/apps/sidekick_controller.go:257-258 | printing and parsing a decimal number gives it back |
| `Leader.MixedNamesCycle` | pkg/controllers/apps/sidekick_controller.go:253-262 | a concrete cycle of three names: the comparator is no order once names with and without ordinal mix |
| `Leader.TextLessByPosition` | pkg/controllers/apps/sidekick_controller.go:261 | names without ordinals are compared at their first difference, a prefix coming first |
| `Leader.GetLeaderLoop` | pkg/controllers/apps/sidekick_controller.go:213-267 | the imperative choice computes that function |
| `Leader.GetLeader` | pkg/controllers/apps/sidekick_controller.go:213-267 | a leader is a listed pod, the named one or a Running one that matches the selector, and there is none exactly when there is no such pod |
| `PodBuilder.MountClosure` | pkg/controllers/apps/pod_builder.go:116-203 | if leader mounts name leader volumes and explicit mounts name a volume of either, every mount of every built container names a volume of the pod |
| `PodBuilder.MountClosureIff` | pkg/controllers/apps/pod_builder.go:116-203 | for any input that can be built, mounts are closed in the pod if and only if the Sidekick's mounts name a volume of Sidekick or leader |
| `PodBuilder.BuildMeaning` | pkg/controllers/apps/pod_builder.go:32-114 | building succeeds exactly when every name-only mount exists on the leader; then node, order, names and contents of all mounts and the added LEADER_NAME are as promised |
| `PodBuilder.BuildSpecLoop` | pkg/controllers/apps/pod_builder.go:86-113 | the loops build that pod spec or report the first missing mount |
| `PodBuilder.ConvMount` | pkg/controllers/apps/pod_builder.go:141-163 | a mount keeps its name; a name-only one becomes a copy of a leader mount, any other stays as it is |
| `PodBuilder.MountIsLeadersFirst` | pkg/controllers/apps/pod_builder.go:169-185 | a name-only mount is a copy of the first mount of that name in a container of the leader, and only if no container has one of the first in an init container; otherwise it cannot be resolved |
| `PodBuilder.ConvContainerLoop` | pkg/controllers/apps/pod_builder.go:116-167 | the loop converts all mounts in order or fails |
| `PodBuilder.FindMount` | pkg/controllers/apps/pod_builder.go:169-185 | the first leader mount of that name, containers before init containers, or none |
| `PodBuilder.ListVolumesMeaning` | pkg/controllers/apps/pod_builder.go:187-203 | names of the listed volumes are those of Sidekick and leader without duplicates, later definitions layered over earlier ones |
| `PodBuilder.LayersOfMember` | pkg/controllers/apps/pod_builder.go:187-203 | where each volume is named once, the definitions of a name are those of that volume |
| `PodBuilder.NothingMounted` | pkg/controllers/apps/pod_builder.go:190-202 | a pod that mounts nothing gets no volumes, not even the Sidekick's own |
| `PodBuilder.ListVolumesLoop` | pkg/controllers/apps/pod_builder.go:187-203 | the loop lists those volumes, and none if nothing is mounted |
| `Stamping.LocalStampIsStable` | pkg/controllers/apps/pod_builder.go:37-91 | with the annotation map shared between pod and Sidekick, the stored hash equals the one the next reconcile computes from the unchanged stored Sidekick |
| `Stamping.DistributedStampIsStable` | pkg/controllers/apps/distributed.go:202-293 | the same with the leader's annotations merged into a fresh map and the label written after hashing |
| `Stamping.StampLocal` | pkg/controllers/apps/pod_builder.go:86-91 | the shared map gets the hash of its former contents and the leader; which map is shared is stated |
| `Stamping.StampDistributed` | pkg/controllers/apps/distributed.go:204-293 | a fresh map gets the merged annotations and the hash of the untouched Sidekick; the label goes into the shared label map |
| `Stamping.MergeFresh` | pkg/controllers/apps/distributed.go:204-212 | the merged map is new, leader entries win, neither source changes |
| `Stamping.HashIff` | vendor/kmodules.xyz/client-go/meta/hash.go:86-104 | two hashes agree if and only if generation, labels and annotations do, the last-applied one aside, and either both or none has annotations |
| `Stamping.HashAfterWriteIff` | pkg/controllers/apps/pod_builder.go:89-91 | a hash taken after writing an annotation agrees if and only if the annotation was there already: the order of assignments matters |
| `Stamping.HashAfterMergeIff` | pkg/controllers/apps/distributed.go:204-209 | a hash taken after merging the leader's annotations into the Sidekick's own map agrees if and only if they add nothing |
| `Stamping.HashAfterLabelIff` | pkg/controllers/apps/distributed.go:349-355 | a hash taken after writing the label agrees if and only if the label was there already |
| `Distributed.DistributedRefinesLocal` | pkg/controllers/apps/distributed.go:661-759 | for a ManifestWork that is not being deleted, phase, failures and restarts equal those of the local functions on the mirrored pod |
| `Distributed.AgreeIff` | pkg/controllers/apps/distributed.go:700-742 | with deletion allowed, the two agree unless a ManifestWork under deletion reports success for the first time under a policy other than Always, and then they differ |
| `Distributed.CalculateDistributedSidekickPhase` | pkg/controllers/apps/distributed.go:661-698 | the status maps and the phase after a look at the feedback |
| `Distributed.GetDistributedSidekickPhase` | pkg/controllers/apps/distributed.go:700-742 | the phase as a function of policy, status and all reported phases |
| `Distributed.IsDistributedSidekickPodRunning` | pkg/controllers/apps/distributed.go:744-759 | true exactly when the first phase reported anywhere is Running and the ManifestWork is not being deleted |
| `Distributed.ExtractPodStatus` | pkg/controllers/apps/distributed.go:813-828 | the last phase that the first manifest reports |
| `Distributed.StatusByPosition` | pkg/controllers/apps/distributed.go:813-828 | by position: the last value of the first manifest that gives a phase, or the empty string |
| `Distributed.RunningByPosition` | pkg/controllers/apps/distributed.go:744-759 | by position: the first value of all manifests that gives a phase decides |
| `Distributed.ReportedByPosition` | pkg/controllers/apps/distributed.go:716-728 | a phase is reported if any value of any manifest gives it |
| `Distributed.GetDistributedContainerRestartCounts` | pkg/controllers/apps/distributed.go:866-889 | the truncated sum of all counts that the first manifest reports |
| `Distributed.ExtractRestartCount` | pkg/controllers/apps/distributed.go:891-900 | the truncated sum of one list, 0 if it is malformed |
| `Placement.CoLocated` | pkg/controllers/apps/distributed.go:512-597 | the ManifestWork for a leader chosen by selector lies in the namespace of a listed ManifestWork that holds this leader; its pod carries that leader's name and the node that the last NodeName value reports there, or none if there is none, whatever the Sidekick's annotations are |
| `Placement.CreateWorkIff` | pkg/controllers/apps/distributed.go:202-362 | creation succeeds exactly when there is an archiver container, the address is known, all mounts resolve and the annotations name a cluster |
| `Placement.WorkFollowsLeader` | pkg/controllers/apps/distributed.go:238-355 | namespace, node, leader, hash and labels of the created ManifestWork; every other annotation is the leader's, or else the Sidekick's |
| `Placement.CreateManifestWork` | pkg/controllers/apps/distributed.go:202-355 | the imperative creation computes that function |
| `Placement.DistributedLeaderIsExtreme` | pkg/controllers/apps/distributed.go:442-597 | the same for ManifestWorks: wherever the comparator is an order the choice is extreme, and independent of the listing order if one pod alone is |
| `Placement.ChooseLeaderLoop` | pkg/controllers/apps/distributed.go:503-597 | the scan over ManifestWorks computes the choice |
| `Placement.ReadFeedback` | pkg/controllers/apps/distributed.go:528-564 | the node is that of the last value that gives one, and a candidate is primary if the role is not asked for or reported |
| `Placement.LeadersAreRead` | pkg/controllers/apps/distributed.go:512-578 | every candidate is the first pod of a listed ManifestWork with feedback, primary where that is asked for, with its cluster and reported node |
| `Placement.LeaderExistsIff` | pkg/controllers/apps/distributed.go:512-584 | there is a leader if and only if some ManifestWork holds such a pod |
| `Token.Verify` | grpc/token/token.go:137-155 | accepted exactly when unexpired (0 counts as expired), identity and payload binding match and the nonce is present |
| `Token.TokenRoundTrip` | grpc/token/token.go:83-135 | a minted token opens to its claims under the minting key and under no other |
| `Token.GrantRoundTrip` | grpc/token/token.go:157-209 | a grant decrypts to its text under its key only, and is a deterministic injective function of key and text |
| `Server.Credentials` | pkg/snapshotserver/grpc.go:129-164 | the checks before the replay cache let exactly the genuine requests through, with their claims: both keys present, token and grant sealed under them, and all claims matching the request |
| `Server.ExecuteMeaning` | pkg/snapshotserver/grpc.go:88-127 | what a genuine request gets and changes: rejected if and only if its nonce is unexpired in the cache; otherwise the nonce is kept until the token's expiry, a get returns the named Snapshot, an update writes it and nothing else |
| `Server.NotGenuine` | pkg/snapshotserver/grpc.go:88-164 | a request that is not genuine changes nothing |
| `Server.CommandServer.ExecuteCommand` | pkg/snapshotserver/grpc.go:86-127 | state and response are those of the function; rejected requests get one and the same response |
| `Server.CommandServer.Authenticate` | pkg/snapshotserver/grpc.go:129-172 | claims exactly when credentials and nonce are good; only good credentials touch the cache |
| `Server.CommandServer.GrpcKeys` | pkg/snapshotserver/grpc.go:174-192 | both keys of the Sidekick's Secret, or none if either is missing |
| `ServerRuns.RejectedDoNotInterfere` | pkg/snapshotserver/grpc.go:133-172 | taking all rejected requests out of any run, replays that prune included, leaves every other response and the Snapshots unchanged, and rejects nothing in what remains |
| `ServerRuns.AlikeRuns` | pkg/snapshotserver/grpc.go:250-265 | the simulation behind it: states that agree on unexpired nonces answer alike for ever |
| `ServerRuns.RejectedIsSilent` | pkg/snapshotserver/grpc.go:254-262 | a rejected request, even one that prunes, leaves a state nobody can tell from the former one |
| `ServerRuns.OneEntryPerToken` | pkg/snapshotserver/grpc.go:88-172 | over any run in which requests reach the cache before expiry, the totals of all Snapshots together grow by exactly the number of distinct tokens whose update was carried out |
| `ServerRuns.SpentIsNew` | pkg/snapshotserver/grpc.go:250-265 | an accepted token was not used before and is covered by the cache until it expires |
| `ServerRuns.EventTotals` | pkg/snapshotserver/snapshot.go:112-156 | a request adds one to the totals exactly when its update is carried out |
| `ReplayCache.NoReplay` | pkg/snapshotserver/grpc.go:250-265 | in every interleaving with a nondecreasing clock and accepts before expiry, no (nonce, expiry) pair is accepted twice |
| `ReplayCache.RefinesHistory` | pkg/snapshotserver/grpc.go:232-265 | acceptance means first use, and after each call the map holds exactly the accepted nonces that have not expired |
| `ReplayCache.AcceptedIff` | pkg/snapshotserver/grpc.go:250-265 | without the clock hypothesis: accepted if and only if never accepted before or the clock is past the token's expiry |
| `ReplayCache.CacheIsLiveHistory` | pkg/snapshotserver/grpc.go:250-265 | the entries are exactly the accepted calls that are still alive, with their expiry |
| `ReplayCache.BlocksUntilExpiry` | pkg/snapshotserver/grpc.go:255-264 | an accepted nonce blocks every call until its entry expires, whatever expiry the later call carries |
| `ServerRuns.ReplayedIff` | pkg/snapshotserver/grpc.go:133-172 | of two requests with one token the second passes again if and only if it reaches the cache no earlier than the token's expiry |
| `ServerRuns.LateTokenLogsTwice` | pkg/snapshotserver/grpc.go:148-169 | one token verified before its expiry and twice reaching the cache after it is answered with success twice and logs two entries |
| `ServerRuns.SnapshotFollowsUpdates` | pkg/snapshotserver/snapshot.go:112-156 | a Snapshot ends any run with its statistics continued by exactly the updates the run carried out on it, in order |
| `ServerRuns.ServerHistoryIsWindow` | pkg/snapshotserver/snapshot.go:106-156 | so its histories are windows on those updates and its totals count them |
| `ReplayCache.Cache.Accept` | pkg/snapshotserver/grpc.go:249-265 | the pruning loop leaves exactly the unexpired entries, plus the nonce if it is accepted |
| `ReplayLimits.SizeBoundIff` | pkg/snapshotserver/grpc.go:232-265 | for positive rate and TTL, at most rate times TTL entries on all runs whose tokens live at most L seconds if and only if L is at most the TTL |
| `ReplayLimits.LongTokensExceed` | pkg/snapshotserver/grpc.go:232-265 | with longer-lived tokens that all pass Verify, a run of that rate with one entry too many |
| `ReplayLimits.CacheSizeBound` | pkg/snapshotserver/grpc.go:232-265 | the sufficient half for one run: rate and lifetime of its accepted nonces bound its entries |
| `ReplayLimits.SizeIsAliveCalls` | pkg/snapshotserver/grpc.go:232-265 | the exact size: the number of accepted calls that are still alive |
| `LogHistory.HistoryIsWindow` | pkg/snapshotserver/snapshot.go:106-156 | each history is a suffix of the events of its outcome, never longer than the largest clamped limit used, which is at most 100 |
| `LogHistory.ConstantLimitWindow` | pkg/snapshotserver/snapshot.go:106-156 | under a constant limit it is exactly the last min(n, clamp(limit)) events |
| `LogHistory.TotalsCountUpdates` | pkg/snapshotserver/snapshot.go:130-153 | the totals count the events of each outcome and sum to the number of updates; Start is fixed by the first, End by the last |
| `LogHistory.UpdateWrites` | pkg/snapshotserver/snapshot.go:130-153 | an update appends to the history of its outcome an entry with its times and, for a failure, the first 4096 bytes of its log; the other history is untouched, and the entry is left out only if the history is empty and the limit not positive |
| `LogHistory.UpdateTouches` | pkg/snapshotserver/snapshot.go:44-70 | of all Snapshots only the named one changes, and in it only the component log, which then runs |
| `LogHistory.WithinLimitIff` | pkg/snapshotserver/snapshot.go:106-110 | after an update the history of its outcome is within its limit if and only if it was so before; it grows up to the limit and never shrinks |
| `LogHistory.NeverShrinks` | pkg/snapshotserver/snapshot.go:106-156 | so over any run no history ever gets shorter |
| `LogHistory.SnapshotStore.UpdateSnapshot` | pkg/snapshotserver/snapshot.go:112-156 | one update of one Snapshot, nothing else; not found changes nothing |
| `LogHistory.SnapshotStore.InitSnapshotComponentsStatus` | pkg/snapshotserver/snapshot.go:44-70 | the log component exists, runs and has statistics |
| `LogHistory.SnapshotStore.TrimLogHistory` | pkg/snapshotserver/snapshot.go:106-110 | keeps the latest entries in order, one fewer exactly when there were more than the limit |
| `LogHistory.Clamp` | pkg/snapshotserver/snapshot.go:113-119 | limits from 0 to 100 are kept, others become the nearer end |
| `Grants.GrantSoundness` | pkg/snapshotserver/grpc.go:152-164 | in every run against an attacker who holds all archivers, each change of a Snapshot is made at some step by a request of a Sidekick to which the operator issued a grant for it under the snapshot key that Sidekick has then; so every changed Snapshot is a granted one |
| `Grants.CredentialsAreGranted` | pkg/snapshotserver/grpc.go:133-164 | a request that passes carries a grant issued to this very Sidekick under its present snapshot key for the Snapshot it names |
| `Grants.SendDisclosesGranted` | pkg/snapshotserver/snapshot.go:72-86 | a Snapshot that is returned is a granted one |
| `Grants.StepKeeps` | pkg/controllers/apps/grpc_wiring.go:91-196 | every step of operator, server and attacker keeps the invariant: no snapshot key known, and nothing known sealed under one but issued grants |
| `Grants.GrantOpensIff` | grpc/token/token.go:178-201 | after any run a grant opens under a Sidekick's present key if and only if it was issued under that key, and then to its text and for that Sidekick alone |
| `Grants.GrantsStayValid` | pkg/controllers/apps/grpc_wiring.go:91-146 | while no Secret is deleted, every grant ever issued still decrypts to the SNAPSHOT_NAME it was made from |
| `Wiring.EnsureKeys` | pkg/controllers/apps/grpc_wiring.go:113-133 | missing keys are filled with the random ones, each with its own; a key once set never changes, nor does any other Secret |
| `Wiring.KeyStore.EnsureGRPCKeys` | pkg/controllers/apps/grpc_wiring.go:91-146 | returns the stored keys after ensuring them |
| `Wiring.WiredEnvMeaning` | pkg/controllers/apps/grpc_wiring.go:157-223 | what the archiver reads afterwards: signing key, address, a grant for its own SNAPSHOT_NAME or none; every other variable as before |
| `Wiring.WiringIsStable` | pkg/controllers/apps/grpc_wiring.go:157-223 | wiring again changes nothing, so the pod spec does not drift |
| `Wiring.PutEnvReads` | pkg/controllers/apps/grpc_wiring.go:234-243 | setting a variable sets that one and no other |
| `Wiring.PutEnvPlaces` | pkg/controllers/apps/grpc_wiring.go:234-243 | either the first variable of that name gets the value and all others keep place and value, or there is none and the variable is appended |
| `Wiring.SidekickSpecObject.SetEnv` | pkg/controllers/apps/grpc_wiring.go:234-243 | the loop performs that update on one container |
| `Wiring.SidekickSpecObject.GetEnv` | pkg/controllers/apps/grpc_wiring.go:198-206 | the first value of that name, or the empty string |
| `Wiring.EnvByPosition` | pkg/controllers/apps/grpc_wiring.go:198-206 | the value of the first variable of that name, by position |
| `Wiring.SidekickSpecObject.GetSidekickContainer` | pkg/controllers/apps/grpc_wiring.go:225-232 | the first container named wal-g, or none |
| `Wiring.Archiver` | pkg/controllers/apps/grpc_wiring.go:225-232 | it is the first of that name, and none means no container has it |
| `Wiring.SidekickSpecObject.SetSigningKey` | pkg/controllers/apps/grpc_wiring.go:157-167 | the key goes into that container, or an error and no change |
| `Wiring.SidekickSpecObject.SetSnapshotGrant` | pkg/controllers/apps/grpc_wiring.go:169-196 | the grant goes into that container if it names a Snapshot, or an error and no change |
| `Wiring.SidekickSpecObject.SetGRPCAddress` | pkg/controllers/apps/grpc_wiring.go:208-223 | the address goes into that container, or an error and no change |
| `Wiring.SidekickSpecObject.WireArchiver` | pkg/controllers/apps/distributed.go:222-236 | the three edits in the order of pod creation |

## Left out

- Distributed leaders selected by name: that path looks the namespace up by the Sidekick's own name and sets no cluster annotation.
- Retry bounds and convergence of the distributed path: external deletion of a ManifestWork is not counted there.
- Failures of single API calls, and environment changes inside one reconcile or one request.
- Overlapping updates of one Snapshot: reading and patching are separate there, so log claims are for sequential runs.
- Deletion of a Secret with its Sidekick ends the validity of old grants; `Grants` has it as a step, and only `Grants.GrantsStayValid` excludes it.
- Restart of the operator, which empties the replay cache.
- Fields of pods and containers that are copied without being looked at are one opaque field.
- UpsertVolume merges two volumes of one name into one with both definitions, in order; how the API merges their fields is not modelled.
- Sort order on name lists where the comparator is no order: the sort is modelled as a stable insertion sort, as sort.Slice is on short lists; `Leader.DeterminedIff` says where every sort that meets the contract gives the same choice.
- MemberLeader: ordinals up to the int64 maximum, beyond which the integer parser saturates and ordinals coincide.
- ensureServiceExport, deploymentNameForPod, getSliceName, resolveDomain and the addresses derived from them: the server address is an argument.
- Real cryptography, encodings, randomness, the network, timeouts, watches and logging.
- Generated code, API types, clients and command-line setup.
