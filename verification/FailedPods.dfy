/**
 What becomes of a pod that has failed but otherwise matches its Sidekick. The program replaces it only
 under the policy Never; a comment in it promises a new pod under Always too.
 */
module FailedPods {
  import opened Kube
  import opened Phase
  import opened Leader
  import opened Reconcile
  import opened Runs
  import opened Convergence

  /** A live pod that has failed; hash, leader and node are as they should be. */
  predicate FailedMatch(w: World, leader: Candidate) {
    && w.sidekick.Some? && w.pod.Some? && w.sidekick.value.status.leaderName == leader.name
    && w.pod.value.phase == PodFailed && !w.pod.value.deleting
    && Lookup(w.pod.value.annotations, KeyHash) == HashOf(w.sidekick.value)
    && Lookup(w.pod.value.annotations, KeyLeader) == Text(leader.name)
    && w.pod.value.spec.node == leader.spec.node
  }

  /** The world with the calculated status stored. */
  ghost function Looked(w: World): World
    requires w.sidekick.Some?
  {
    var sk := w.sidekick.value;
    w.(sidekick := Some(sk.(finalizer := true, status := Calculate(sk.spec, sk.status, w.pod))))
  }

  lemma SyncFailed(w: World, leader: Candidate)
    requires FailedMatch(w, leader)
    ensures SyncExistingPod(w, w.sidekick.value, leader, w.pod.value).event.Deleted?
            <==> w.sidekick.value.spec.policy == Never
  {
  }

  /** It is deleted, to make room for a new one, if and only if the policy is Never and the Sidekick itself
      has neither failed nor succeeded. */
  lemma FailedPodReplacedIff(w: World, leader: Candidate, uid: Uid)
    requires FailedMatch(w, leader) && !w.sidekick.value.deleting
    requires GetLeader(w.sidekick.value.spec.leader, w.candidates) == Some(leader)
    ensures var phase := Looked(w).sidekick.value.status.phase;
            ReconcileWorld(w, uid).event.Deleted?
            <==> w.sidekick.value.spec.policy == Never && phase != SkFailed && phase != SkSucceeded
  {
    var w' := Looked(w);
    assert HashOf(w'.sidekick.value) == HashOf(w.sidekick.value);
    assert w'.sidekick.value.status.leaderName == leader.name;
    SyncFailed(w', leader);
  }

  lemma FailedStep(h: History, a: Action, leader: Candidate)
    requires Stable(h.world, leader) && FailedMatch(h.world, leader)
    requires Calm(h.world.sidekick.value.spec, leader, a) && Enabled(h, a)
    ensures Apply(h, a).world.pod.Some? && Apply(h, a).world.pod.value.phase == PodFailed
  {
    if a.DoReconcile? {
      ReconcileApproaches(h.world, leader, a.uid);
    }
  }

  lemma MatchedAgain(w: World, leader: Candidate)
    requires Rank(w, leader) == 0 && w.pod.Some? && w.pod.value.phase == PodFailed
    ensures FailedMatch(w, leader)
  {
  }

  /** Under Always a matching pod that has failed stays for ever: in every undisturbed run it is the same
      pod, still failed, never deleted, and no other one is created. */
  lemma {:induction false} FailedPodStays(h: History, acts: seq<Action>, leader: Candidate)
    requires Stable(h.world, leader) && FailedMatch(h.world, leader)
    requires Legal(h, acts) && forall a | a in acts :: Calm(h.world.sidekick.value.spec, leader, a)
    ensures var e := After(h, acts);
            && FailedMatch(e.world, leader) && e.created == h.created
            && e.world.pod.value.uid == h.world.pod.value.uid
    decreases |acts|
  {
    if acts != [] {
      var next := Apply(h, acts[0]);
      CalmStep(h, acts[0], leader);
      FailedStep(h, acts[0], leader);
      MatchedAgain(next.world, leader);
      FailedPodStays(next, acts[1..], leader);
    }
  }
}
