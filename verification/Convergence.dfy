/**
 Convergence under restart policy Always: with a stable Sidekick, a leader that keeps its name and node,
 and nobody else deleting anything, the operator reaches a pod that matches the Sidekick and then leaves
 it alone. The list of candidates, and everything else about the leader, may change all the time.
 */
module Convergence {
  import opened Kube
  import opened Backoff
  import opened Phase
  import opened Leader
  import opened PodBuilder
  import opened Reconcile
  import opened Runs

  /** The same leader, wherever the rest of its record has gone. */
  predicate SameSpot(p: Candidate, q: Candidate) {
    p.name == q.name && p.spec.node == q.spec.node
  }

  /** The candidates offer a leader of this name on this node, for which the pod can be built. */
  ghost predicate Offers(spec: SidekickSpec, candidates: seq<Candidate>, leader: Candidate) {
    && GetLeader(spec.leader, candidates).Some?
    && SameSpot(GetLeader(spec.leader, candidates).value, leader)
    && BuildSpec(spec, GetLeader(spec.leader, candidates).value).Ok?
  }

  /** A Sidekick that is not being deleted, and a leader for it. Of `leader` only name and node count. */
  ghost predicate Steady(w: World, leader: Candidate) {
    && w.sidekick.Some? && !w.sidekick.value.deleting && w.sidekick.value.spec.policy == Always
    && Offers(w.sidekick.value.spec, w.candidates, leader)
  }

  /** What stability needs besides: the leader is scheduled. */
  ghost predicate Stable(w: World, leader: Candidate) {
    Steady(w, leader) && leader.spec.node != ""
  }

  /** The pod is one that podNeedsRecreate rejects for recreation, and the status names its leader. */
  predicate Matching(w: World, leader: Candidate) {
    && w.sidekick.Some? && w.pod.Some?
    && !PodNeedsRecreate(w.sidekick.value, leader, w.pod.value)
    && w.sidekick.value.status.leaderName == leader.name
  }

  /** How far the world is from a matching pod. */
  function Rank(w: World, leader: Candidate): nat {
    if w.pod.None? then 1
    else if w.pod.value.deleting then (if w.pod.value.finalizer then 3 else 2)
    else if Matching(w, leader) then 0
    else 4
  }

  /** The Sidekick keeps everything but status and finalizer. */
  predicate SameSidekick(w: World, w': World) {
    && w.sidekick.Some? && w'.sidekick.Some?
    && w'.sidekick.value
       == w.sidekick.value.(finalizer := w'.sidekick.value.finalizer, status := w'.sidekick.value.status)
    && w'.candidates == w.candidates
  }

  lemma SteadyStays(w: World, w': World, leader: Candidate)
    requires Steady(w, leader) && SameSidekick(w, w')
    ensures Steady(w', leader)
  {
  }

  /** What following the leader does, by rank. */
  ghost predicate Approaches(w: World, leader: Candidate, o: Outcome, uid: Uid) {
    && SameSidekick(w, o.world)
    && match Rank(w, leader)
       case 0 => o.event == Quiet && o.world.pod == w.pod && Matching(o.world, leader)
       case 1 => o.event == Created(uid) && Rank(o.world, leader) == 0
       case 4 => o.event.Deleted? && Rank(o.world, leader) in {2, 3}
       case _ => !o.event.Created? && o.world.pod.Some? && o.world.pod.value.deleting
                 && o.world.pod.value.finalizer == w.pod.value.finalizer
  }

  lemma CreateApproaches(w: World, sk: Sidekick, found: Candidate, leader: Candidate, built: Result<PodSpec>, uid: Uid)
    requires w.sidekick == Some(sk) && w.pod.None? && sk.spec.policy == Always && SameSpot(found, leader)
    requires built.Ok? && built.value.node == leader.spec.node
    ensures Approaches(w, leader, CreateBuilt(w, sk, found, built, uid), uid)
  {
    var w' := CreateBuilt(w, sk, found, built, uid).world;
    assert HashOf(w'.sidekick.value) == HashOf(sk);
  }

  /** A matching pod is left alone. */
  lemma KeepApproaches(w: World, sk: Sidekick, found: Candidate, leader: Candidate, pod: Pod, uid: Uid)
    requires w == World(Some(sk), Some(pod), w.candidates) && sk.status.leaderName == leader.name
    requires SameSpot(found, leader)
    requires !PodNeedsRecreate(sk, leader, pod)
    ensures Approaches(w, leader, SyncExistingPod(w, sk, found, pod), uid)
  {
    var w' := SyncExistingPod(w, sk, found, pod).world;
    assert HashOf(w'.sidekick.value) == HashOf(sk);
  }

  lemma DeleteApproaches(w: World, sk: Sidekick, status: Status, leader: Candidate, pod: Pod, reason: Reason, uid: Uid)
    requires w == World(Some(sk), Some(pod), w.candidates)
    requires PodNeedsRecreate(sk, leader, pod) || sk.status.leaderName != leader.name
    ensures Approaches(w, leader, DeletePodAndResetStatus(w, sk, status, pod, reason), uid)
  {
  }

  lemma SyncApproaches(w: World, sk: Sidekick, found: Candidate, leader: Candidate, pod: Pod, uid: Uid)
    requires w == World(Some(sk), Some(pod), w.candidates) && sk.status.leaderName == leader.name
    requires SameSpot(found, leader)
    ensures Approaches(w, leader, SyncExistingPod(w, sk, found, pod), uid)
  {
    if PodNeedsRecreate(sk, leader, pod) {
      var counted := sk.status.(failures := sk.status.failures[pod.uid := true]);
      DeleteApproaches(w, sk, counted, leader, pod, RecreateReason(sk, found, pod), uid);
      DeleteApproaches(w, sk, sk.status, leader, pod, RecreateReason(sk, found, pod), uid);
    } else {
      KeepApproaches(w, sk, found, leader, pod, uid);
    }
  }

  lemma FollowApproaches(w: World, sk: Sidekick, found: Candidate, leader: Candidate, uid: Uid)
    requires w.sidekick == Some(sk) && sk.spec.policy == Always && BuildSpec(sk.spec, found).Ok?
    requires SameSpot(found, leader)
    ensures Approaches(w, leader, Follow(w, sk, Some(found), uid), uid)
  {
    if w.pod.None? {
      BuildMeaning(sk.spec, found);
      CreateApproaches(w, sk, found, leader, BuildSpec(sk.spec, found), uid);
    } else if sk.status.leaderName == leader.name {
      SyncApproaches(w, sk, found, leader, w.pod.value, uid);
    } else {
      DeleteApproaches(w, sk, sk.status, leader, w.pod.value, LeaderChanged, uid);
    }
  }

  /** Up to the leader lookup, a reconcile changes only bookkeeping that the rank does not see. */
  lemma SidekickApproaches(w: World, leader: Candidate, uid: Uid)
    requires Steady(w, leader)
    ensures Approaches(w, leader, ReconcileSidekick(w, uid), uid)
  {
    var sk := w.sidekick.value;
    var found := GetLeader(sk.spec.leader, w.candidates).value;
    var sk' := sk.(finalizer := true, status := Calculate(sk.spec, sk.status, w.pod));
    var w' := w.(sidekick := Some(sk'));
    assert HashOf(sk') == HashOf(sk);
    assert sk'.status.leaderName == sk.status.leaderName;
    assert Rank(w', leader) == Rank(w, leader);
    FollowApproaches(w', sk', found, leader, uid);
    assert ReconcileSidekick(w, uid) == Follow(w', sk', Some(found), uid);
  }

  /** One reconcile: a matching pod stays untouched, an absent one is created to match, a stale one
      is deleted, a terminating one loses its finalizer. */
  lemma ReconcileApproaches(w: World, leader: Candidate, uid: Uid)
    requires Steady(w, leader)
    ensures var o := ReconcileWorld(w, uid);
            && Steady(o.world, leader) && SameSidekick(w, o.world) && Rank(o.world, leader) <= Rank(w, leader)
            && (Rank(w, leader) != 2 && Rank(w, leader) != 0 ==> Rank(o.world, leader) < Rank(w, leader))
            && (o.event.Created? <==> Rank(w, leader) == 1)
            && (Rank(w, leader) == 0 ==> o.event == Quiet && o.world.pod == w.pod)
            && (Rank(w, leader) in {3, 4} ==> o.world.pod.Some? && o.world.pod.value.deleting)
            && (Rank(w, leader) == 3 ==> !o.world.pod.value.finalizer)
  {
    var o := ReconcileWorld(w, uid);
    if w.pod.Some? && w.pod.value.deleting {
      var w' := CountExternalDeletion(w, w.pod.value);
      SteadyStays(w, w', leader);
      if !w.pod.value.finalizer {
        SidekickApproaches(w', leader, uid);
        SteadyStays(w', o.world, leader);
      } else {
        SteadyStays(w, o.world, leader);
      }
    } else {
      SidekickApproaches(w, leader, uid);
      SteadyStays(w, o.world, leader);
    }
  }

  lemma MovingOnKeepsRank(w: World, leader: Candidate, q: Pod)
    requires Stable(w, leader) && w.pod.Some? && MovesOn(w.pod.value, q)
    ensures Stable(w.(pod := Some(q)), leader) && Rank(w.(pod := Some(q)), leader) <= Rank(w, leader)
  {
  }

  /** The rank does not depend on the list of candidates. */
  lemma RelistingKeepsRank(w: World, leader: Candidate, c: seq<Candidate>)
    requires Steady(w, leader) && Offers(w.sidekick.value.spec, c, leader)
    ensures Steady(w.(candidates := c), leader) && Rank(w.(candidates := c), leader) == Rank(w, leader)
  {
  }

  /** A scheduled leader is what stability needs: a matching live pod keeps matching through every
      move of kubelet and scheduler exactly when the leader has a node. */
  lemma MatchingSurvivesIff(w: World, leader: Candidate)
    requires w.sidekick.Some? && w.sidekick.value.spec.policy == Always && Matching(w, leader)
    ensures (forall q | MovesOn(w.pod.value, q) :: Matching(w.(pod := Some(q)), leader)) <==> leader.spec.node != ""
  {
    var pod := w.pod.value;
    if leader.spec.node == "" {
      var q := pod.(spec := pod.spec.(node := "worker"));
      assert MovesOn(pod, q) && q.spec.node != leader.spec.node;
      assert !Matching(w.(pod := Some(q)), leader);
    }
  }

  // ---------------------------------------------------------------- rounds

  /** A pod that may vanish does. */
  function Tidy(w: World): World {
    if w.pod.Some? && w.pod.value.deleting && !w.pod.value.finalizer then w.(pod := None) else w
  }

  /** What happens between two reconciles: a move of kubelet and scheduler (in sum, one), and a change of
      the candidates. */
  datatype Interlude = Interlude(pod: Option<Pod>, candidates: Option<seq<Candidate>>)

  ghost function Moved(w: World, pod: Option<Pod>): World {
    if pod.Some? && w.pod.Some? && MovesOn(w.pod.value, pod.value) then w.(pod := pod) else w
  }

  ghost function Relisted(w: World, candidates: Option<seq<Candidate>>, leader: Candidate): World {
    if candidates.Some? && w.sidekick.Some? && Offers(w.sidekick.value.spec, candidates.value, leader)
    then w.(candidates := candidates.value) else w
  }

  /** One reconcile, then whatever the environment does while the leader stays, then vanishing. */
  ghost function Round(w: World, leader: Candidate, uid: Uid, i: Interlude): World {
    Tidy(Relisted(Moved(ReconcileWorld(w, uid).world, i.pod), i.candidates, leader))
  }

  lemma InterludeKeepsRank(w: World, leader: Candidate, i: Interlude)
    requires Stable(w, leader)
    ensures var w' := Relisted(Moved(w, i.pod), i.candidates, leader);
            Stable(w', leader) && Rank(w', leader) <= Rank(w, leader)
  {
    var m := Moved(w, i.pod);
    if m != w {
      MovingOnKeepsRank(w, leader, i.pod.value);
    }
    if Relisted(m, i.candidates, leader) != m {
      RelistingKeepsRank(m, leader, i.candidates.value);
    }
  }

  lemma RoundApproaches(w: World, leader: Candidate, uid: Uid, i: Interlude)
    requires Stable(w, leader)
    ensures Stable(Round(w, leader, uid, i), leader)
    ensures Rank(Round(w, leader, uid, i), leader)
            <= (match Rank(w, leader) case 4 => 3 case 3 => 1 case 2 => 1 case _ => 0)
  {
    ReconcileApproaches(w, leader, uid);
    InterludeKeepsRank(ReconcileWorld(w, uid).world, leader, i);
  }

  /** From any state whatever, three reconciles, with terminating pods vanishing in between, reach a
      live pod that needs no recreation. */
  lemma ThreeRoundsSuffice(w: World, leader: Candidate, u1: Uid, u2: Uid, u3: Uid,
                           i1: Interlude, i2: Interlude, i3: Interlude)
    requires Stable(w, leader)
    ensures var end := Round(Round(Round(w, leader, u1, i1), leader, u2, i2), leader, u3, i3);
            Stable(end, leader) && Matching(end, leader) && !end.pod.value.deleting
  {
    RoundApproaches(w, leader, u1, i1);
    var w1 := Round(w, leader, u1, i1);
    RoundApproaches(w1, leader, u2, i2);
    var w2 := Round(w1, leader, u2, i2);
    RoundApproaches(w2, leader, u3, i3);
  }

  // ------------------------------------------------------------------ runs

  /** The steps of an undisturbed run: candidates come, go and change as long as the leader stays. */
  ghost predicate Calm(spec: SidekickSpec, leader: Candidate, a: Action) {
    a.DoReconcile? || a.PodMovesOn? || a.PodVanishes? || (a.CandidatesChange? && Offers(spec, a.candidates, leader))
  }

  /** What one undisturbed step keeps. */
  ghost predicate Undisturbed(h: History, h': History, leader: Candidate) {
    && Stable(h'.world, leader) && h.world.sidekick.Some? && h'.world.sidekick.value.spec == h.world.sidekick.value.spec
    && Rank(h'.world, leader) <= Rank(h.world, leader)
    && (Rank(h.world, leader) == 0 ==>
          && h'.created == h.created && h'.uncounted == h.uncounted
          && h'.world.pod.value.uid == h.world.pod.value.uid)
    && h.created <= h'.created && |h'.created| <= |h.created| + 1
    && (h'.created != h.created ==> Rank(h'.world, leader) == 0)
  }

  lemma CalmReconcile(h: History, uid: Uid, leader: Candidate)
    requires Stable(h.world, leader) && uid !in h.created
    ensures Undisturbed(h, Record(h, ReconcileWorld(h.world, uid)), leader)
  {
    ReconcileApproaches(h.world, leader, uid);
  }

  lemma CalmStep(h: History, a: Action, leader: Candidate)
    requires Stable(h.world, leader) && Calm(h.world.sidekick.value.spec, leader, a) && Enabled(h, a)
    ensures Undisturbed(h, Apply(h, a), leader)
  {
    match a
    case DoReconcile(uid) => CalmReconcile(h, uid, leader);
    case PodMovesOn(q) => MovingOnKeepsRank(h.world, leader, q);
    case CandidatesChange(c) => RelistingKeepsRank(h.world, leader, c);
    case PodVanishes =>
  }

  lemma UndisturbedComposes(a: History, b: History, c: History, leader: Candidate)
    requires Stable(a.world, leader) && Undisturbed(a, b, leader) && Undisturbed(b, c, leader)
    ensures Undisturbed(a, c, leader)
  {
  }

  /** In every undisturbed run the rank never rises; a matching pod stays the pod for ever, with no
      creation and no deletion; and at most one pod is created altogether. */
  lemma {:induction false} CalmRunsConverge(h: History, acts: seq<Action>, leader: Candidate)
    requires Stable(h.world, leader) && Legal(h, acts)
    requires forall a | a in acts :: Calm(h.world.sidekick.value.spec, leader, a)
    ensures Undisturbed(h, After(h, acts), leader)
    decreases |acts|
  {
    if acts != [] {
      var next := Apply(h, acts[0]);
      CalmStep(h, acts[0], leader);
      CalmRunsConverge(next, acts[1..], leader);
      UndisturbedComposes(h, next, After(next, acts[1..]), leader);
    }
  }

  /** What a reconcile of a matching pod leaves in the status: the pod's phase, its leader, the
      generation, the phase Current exactly when all containers run, and its restart count. */
  lemma StatusReflectsPod(w: World, leader: Candidate, uid: Uid)
    requires Stable(w, leader) && Rank(w, leader) == 0
    ensures var st := ReconcileWorld(w, uid).world.sidekick.value.status;
            && st.podPhase == w.pod.value.phase && st.leaderName == leader.name
            && st.observedGeneration == w.sidekick.value.generation
            && st.phase == (if PodIsRunning(w.pod) then SkCurrent else SkDegraded)
            && st.restarts == w.sidekick.value.status.restarts[w.pod.value.uid := RestartCount(w.pod.value)]
  {
    var sk := w.sidekick.value;
    var sk' := sk.(finalizer := true, status := Calculate(sk.spec, sk.status, w.pod));
    assert HashOf(sk') == HashOf(sk);
    assert sk'.status.restarts == sk.status.restarts[w.pod.value.uid := RestartCount(w.pod.value)];
    var w' := w.(sidekick := Some(sk'));
    var found := GetLeader(sk.spec.leader, w.candidates).value;
    assert ReconcileWorld(w, uid) == SyncExistingPod(w', sk', found, w.pod.value);
  }
}
