/**
 One reconcile of a non-distributed Sidekick as a function of the cluster state. Everything the
 program reads from or writes to the API server during the call is in `World`.
 */
module Reconcile {
  import opened Kube
  import opened Phase
  import opened Leader
  import opened PodBuilder

  /** The Sidekick, the pod under its name, and the pods its leader may be chosen from. */
  datatype World = World(sidekick: Option<Sidekick>, pod: Option<Pod>, candidates: seq<Candidate>)

  /** Why the operator deleted the pod. */
  datatype Reason = LeaderLost | LeaderChanged | NodeEmpty | NodeMoved | FailedUnderNever | SpecChanged

  datatype Event = Quiet | Created(uid: Uid) | Deleted(uid: Uid, reason: Reason)

  datatype Outcome = Outcome(world: World, event: Event)

  function WithStatus(w: World, sk: Sidekick, status: Status): World {
    w.(sidekick := Some(sk.(status := status)))
  }

  // ----------------------------------------------- finalizer of the pod

  /** A pod deleted by anybody but the operator counts as failed, unless the Sidekick is gone or going. */
  function CountExternalDeletion(w: World, pod: Pod): World {
    if KeyDeletionInitiator !in pod.annotations && w.sidekick.Some? && !w.sidekick.value.deleting then
      var sk := w.sidekick.value;
      WithStatus(w, sk, sk.status.(failures := sk.status.failures[pod.uid := true]))
    else w
  }

  // -------------------------------------------------- deleting and creating

  function MarkDeleted(pod: Pod): Pod {
    pod.(annotations := pod.annotations[KeyDeletionInitiator := Text("sidekick-operator")], deleting := true)
  }

  function ResetStatus(sk: Sidekick, status: Status): Status {
    status.(leaderName := "", podPhase := PhaseUnset, observedGeneration := sk.generation)
  }

  /** deletePodAndResetStatus. */
  function DeletePodAndResetStatus(w: World, sk: Sidekick, status: Status, pod: Pod, reason: Reason): Outcome {
    Outcome(WithStatus(w, sk, ResetStatus(sk, status)).(pod := Some(MarkDeleted(pod))), Deleted(pod.uid, reason))
  }

  function StampedAnnotations(sk: Sidekick, leader: Candidate): Annotations {
    sk.annotations[KeyHash := HashOf(sk)][KeyLeader := Text(leader.name)]
  }

  /** The pod as the API server stores it on creation. */
  function NewPod(sk: Sidekick, leader: Candidate, spec: PodSpec, uid: Uid): Pod {
    Pod(uid, StampedAnnotations(sk, leader), true, false, spec, PodPending, [], [])
  }

  /** createSidekickPod; `uid` is the one the API server will assign. */
  function CreateSidekickPod(w: World, sk: Sidekick, leader: Candidate, uid: Uid): Outcome {
    CreateBuilt(w, sk, leader, BuildSpec(sk.spec, leader), uid)
  }

  function CreateBuilt(w: World, sk: Sidekick, leader: Candidate, built: Result<PodSpec>, uid: Uid): Outcome {
    match built
    case Err(_) => Outcome(w, Quiet)
    case Ok(spec) =>
      var pod := NewPod(sk, leader, spec, uid);
      var status := sk.status.(leaderName := leader.name, podPhase := pod.phase, observedGeneration := sk.generation);
      Outcome(WithStatus(w, sk, status).(pod := Some(pod)), Created(uid))
  }

  predicate PodNeedsRecreate(sk: Sidekick, leader: Candidate, pod: Pod) {
    || Lookup(pod.annotations, KeyHash) != HashOf(sk)
    || Lookup(pod.annotations, KeyLeader) != Text(leader.name)
    || pod.spec.node != leader.spec.node
    || (pod.phase == PodFailed && sk.spec.policy == Never)
  }

  /** The reason that decides whether a recreated pod is counted as failed. */
  function RecreateReason(sk: Sidekick, leader: Candidate, pod: Pod): Reason {
    if pod.spec.node != leader.spec.node then (if pod.spec.node == "" then NodeEmpty else NodeMoved)
    else if pod.phase == PodFailed && sk.spec.policy == Never then FailedUnderNever
    else if Lookup(pod.annotations, KeyLeader) != Text(leader.name) then LeaderChanged
    else SpecChanged
  }

  /** syncExistingPod. */
  function SyncExistingPod(w: World, sk: Sidekick, leader: Candidate, pod: Pod): Outcome {
    if PodNeedsRecreate(sk, leader, pod) then
      var status := if leader.spec.node != pod.spec.node && pod.spec.node != ""
                    then sk.status.(failures := sk.status.failures[pod.uid := true])
                    else sk.status;
      DeletePodAndResetStatus(w, sk, status, pod, RecreateReason(sk, leader, pod))
    else
      Outcome(WithStatus(w, sk, sk.status.(podPhase := pod.phase, observedGeneration := sk.generation)), Quiet)
  }

  // ---------------------------------------------------------- one reconcile

  /** From the leader lookup to the end; the status in `sk` is already stored. */
  function FollowLeader(w: World, sk: Sidekick, uid: Uid): Outcome {
    Follow(w, sk, GetLeader(sk.spec.leader, w.candidates), uid)
  }

  function Follow(w: World, sk: Sidekick, leader: Option<Candidate>, uid: Uid): Outcome {
    if leader.None? || leader.value.name != sk.status.leaderName then
      if w.pod.Some? then
        DeletePodAndResetStatus(w, sk, sk.status, w.pod.value, if leader.None? then LeaderLost else LeaderChanged)
      else if leader.None? then Outcome(w, Quiet)
      else CreateSidekickPod(w, sk, leader.value, uid)
    else if w.pod.Some? then SyncExistingPod(w, sk, leader.value, w.pod.value)
    else CreateSidekickPod(w, sk, leader.value, uid)
  }

  /** With the new status stored: a Failed Sidekick fails its running pod and stops, a Succeeded
      one just stops, any other goes on to its leader. */
  function Proceed(w: World, sk: Sidekick, status: Status, uid: Uid): Outcome {
    var w' := WithStatus(w, sk, status);
    if status.phase == SkFailed then
      if w.pod.Some? && w.pod.value.phase == PodRunning
      then Outcome(w'.(pod := Some(w.pod.value.(phase := PodFailed))), Quiet)
      else Outcome(w', Quiet)
    else if status.phase == SkSucceeded then Outcome(w', Quiet)
    else FollowLeader(w', sk.(status := status), uid)
  }

  /** From the phase calculation to the end. */
  ghost function Advance(w: World, sk: Sidekick, uid: Uid): Outcome {
    Proceed(w, sk, Calculate(sk.spec, sk.status, w.pod), uid)
  }

  /** From fetching the Sidekick to the end. Terminating a Sidekick that nobody else holds removes
      it, so the status patch that follows finds nothing and the call ends there. The API server
      refuses a new finalizer on an object that is being deleted. */
  ghost function ReconcileSidekick(w: World, uid: Uid): Outcome {
    match w.sidekick
    case None => Outcome(w, Quiet)
    case Some(sk) =>
      if sk.deleting then
        if !sk.finalizer then Outcome(w, Quiet)
        else
          var pod := if w.pod.Some? then Some(w.pod.value.(deleting := true)) else None;
          if !sk.foreignFinalizers then Outcome(w.(sidekick := None, pod := pod), Quiet)
          else
            var sk' := sk.(finalizer := false);
            Advance(w.(sidekick := Some(sk'), pod := pod), sk', uid)
      else
        var sk' := sk.(finalizer := true);
        Advance(w.(sidekick := Some(sk')), sk', uid)
  }

  /** Reconcile. */
  ghost function ReconcileWorld(w: World, uid: Uid): Outcome {
    if w.pod.Some? && w.pod.value.deleting then
      var w' := CountExternalDeletion(w, w.pod.value);
      if w.pod.value.finalizer
      then Outcome(w'.(pod := Some(w.pod.value.(finalizer := false))), Quiet)
      else ReconcileSidekick(w', uid)
    else ReconcileSidekick(w, uid)
  }
}
