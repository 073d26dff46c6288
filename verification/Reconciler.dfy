/**
 The reconciler as the program writes it: methods that read and update the stored objects step
 by step. Each method is proved to do what the function of the same step in `Reconcile` says.
 */
module Reconciler {
  import opened Kube
  import opened Phase
  import opened Leader
  import opened PodBuilder
  import opened Reconcile

  class SidekickReconciler {
    // What the API server stores.
    var sidekick: Option<Sidekick>
    var pod: Option<Pod>
    var candidates: seq<Candidate>

    ghost function State(): World
      reads this
    {
      World(sidekick, pod, candidates)
    }

    constructor (w: World)
      ensures State() == w
    {
      sidekick, pod, candidates := w.sidekick, w.pod, w.candidates;
    }

    /** updateSidekickStatus: replaces the stored status, or fails when the object is gone. */
    method UpdateSidekickStatus(status: Status) returns (found: bool)
      modifies `sidekick
      ensures found == old(sidekick).Some?
      ensures sidekick == if found then Some(old(sidekick).value.(status := status)) else None
    {
      found := sidekick.Some?;
      if found {
        sidekick := Some(sidekick.value.(status := status));
      }
    }

    method RemovePodFinalizerIfMarkedForDeletion() returns (removed: bool)
      modifies `sidekick, `pod
      ensures old(pod.Some? && pod.value.deleting) ==>
                && removed == old(pod).value.finalizer
                && (var counted := CountExternalDeletion(old(State()), old(pod).value);
                    State() == counted.(pod := Some(old(pod).value.(finalizer := false))))
      ensures !old(pod.Some? && pod.value.deleting) ==> !removed && State() == old(State())
    {
      removed := false;
      if pod.Some? && pod.value.deleting {
        if KeyDeletionInitiator !in pod.value.annotations {
          if sidekick.Some? && !sidekick.value.deleting {
            var status := sidekick.value.status;
            var _ := UpdateSidekickStatus(status.(failures := status.failures[pod.value.uid := true]));
          }
        }
        if pod.value.finalizer {
          pod := Some(pod.value.(finalizer := false));
          removed := true;
        }
      }
    }

    method DeletePod()
      requires pod.Some?
      modifies `pod
      ensures pod == Some(MarkDeleted(old(pod).value))
    {
      // setDeletionInitiatorAnnotation, then Delete
      pod := Some(pod.value.(annotations := pod.value.annotations[KeyDeletionInitiator := Text("sidekick-operator")]));
      pod := Some(pod.value.(deleting := true));
    }

    method DeletePodAndReset(sk: Sidekick, ghost reason: Reason)
      requires pod.Some? && sidekick.Some? && sidekick.value.(status := sk.status) == sk
      modifies `sidekick, `pod
      ensures State() == DeletePodAndResetStatus(old(State()), sk, sk.status, old(pod).value, reason).world
    {
      DeletePod();
      var status := sk.status.(leaderName := "", podPhase := PhaseUnset, observedGeneration := sk.generation);
      var _ := UpdateSidekickStatus(status);
    }

    method SyncPod(sk: Sidekick, leader: Candidate) returns (deleted: bool)
      requires pod.Some? && sidekick == Some(sk)
      modifies `sidekick, `pod
      ensures State() == SyncExistingPod(old(State()), sk, leader, old(pod).value).world
      ensures deleted <==> SyncExistingPod(old(State()), sk, leader, old(pod).value).event.Deleted?
    {
      if PodNeedsRecreate(sk, leader, pod.value) {
        var sk' := sk;
        if leader.spec.node != pod.value.spec.node && pod.value.spec.node != "" {
          sk' := sk.(status := sk.status.(failures := sk.status.failures[pod.value.uid := true]));
        }
        DeletePodAndReset(sk', RecreateReason(sk, leader, pod.value));
        return true;
      }
      var _ := UpdateSidekickStatus(sk.status.(podPhase := pod.value.phase, observedGeneration := sk.generation));
      return false;
    }

    method CreatePod(sk: Sidekick, leader: Candidate, uid: Uid) returns (created: bool)
      requires pod.None? && sidekick == Some(sk)
      modifies `sidekick, `pod
      ensures State() == CreateSidekickPod(old(State()), sk, leader, uid).world
      ensures created <==> CreateSidekickPod(old(State()), sk, leader, uid).event == Created(uid)
    {
      var spec := BuildSpecLoop(sk.spec, leader);
      if spec.Err? {
        return false;
      }
      pod := Some(NewPod(sk, leader, spec.value, uid));
      var _ := UpdateSidekickStatus(
        sk.status.(leaderName := leader.name, podPhase := pod.value.phase, observedGeneration := sk.generation));
      return true;
    }

    /** updateSidekickPhase: stores the new phase; `drop` ends the reconcile. */
    method UpdateSidekickPhase() returns (drop: bool)
      requires sidekick.Some?
      modifies `sidekick, `pod
      ensures var sk := old(sidekick).value;
              sidekick == Some(sk.(status := Calculate(sk.spec, sk.status, old(pod))))
      ensures drop <==> sidekick.value.status.phase == SkFailed || sidekick.value.status.phase == SkSucceeded
      ensures pod == if sidekick.value.status.phase == SkFailed && old(pod).Some? && old(pod).value.phase == PodRunning
                     then Some(old(pod).value.(phase := PodFailed)) else old(pod)
    {
      var sk := sidekick.value;
      var status := CalculateSidekickPhase(sk.spec, sk.status, pod);
      var _ := UpdateSidekickStatus(status);
      if status.phase == SkFailed {
        if pod.Some? && pod.value.phase == PodRunning {
          pod := Some(pod.value.(phase := PodFailed));
        }
        return true;
      }
      return status.phase == SkSucceeded;
    }

    /** The rest of Reconcile once the finalizer of the Sidekick is settled. */
    method Continue(uid: Uid)
      requires sidekick.Some?
      modifies `sidekick, `pod
      ensures State() == Advance(old(State()), old(sidekick).value, uid).world
    {
      var drop := UpdateSidekickPhase();
      if drop {
        return;
      }
      var sk := sidekick.value;
      var leader := GetLeaderLoop(sk.spec.leader, candidates);
      if leader.None? || leader.value.name != sk.status.leaderName {
        if pod.Some? {
          DeletePodAndReset(sk, if leader.None? then LeaderLost else LeaderChanged);
          return;
        } else if leader.None? {
          return;
        }
      }
      if pod.Some? {
        var _ := SyncPod(sk, leader.value);
        return;
      }
      var _ := CreatePod(sk, leader.value, uid);
    }

    /** Reconcile. */
    method Reconcile(uid: Uid)
      modifies `sidekick, `pod
      ensures State() == ReconcileWorld(old(State()), uid).world
    {
      var removed := RemovePodFinalizerIfMarkedForDeletion();
      if removed {
        return;
      }
      if sidekick.None? {
        return;
      }
      var sk := sidekick.value;
      if sk.deleting {
        if !sk.finalizer {
          return;
        }
        // terminate
        if pod.Some? {
          pod := Some(pod.value.(deleting := true));
        }
        if !sk.foreignFinalizers {
          sidekick := None;
          return;
        }
        sidekick := Some(sk.(finalizer := false));
      } else {
        sidekick := Some(sk.(finalizer := true));
      }
      Continue(uid);
    }
  }
}
