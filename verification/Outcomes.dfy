/**
 What one reconcile does, field by field: when it stops, deletes, keeps, creates or waits, and what the
 Sidekick, its status and its pod are afterwards.
 */
module Outcomes {
  import opened Kube
  import opened Phase
  import opened Leader
  import opened PodBuilder
  import opened Reconcile

  predicate Ended(p: SidekickPhase) { p == SkFailed || p == SkSucceeded }

  /** The pod is not what the Sidekick and this leader ask for. */
  predicate Stale(sk: Sidekick, leader: Candidate, pod: Pod) {
    || !(KeyHash in pod.annotations && pod.annotations[KeyHash] == HashOf(sk))
    || (if KeyLeader in pod.annotations then pod.annotations[KeyLeader] != Text(leader.name) else leader.name != "")
    || pod.spec.node != leader.spec.node
    || (pod.phase == PodFailed && sk.spec.policy == Never)
  }

  /** The leader is another one than the status names, or there is none. */
  predicate LeaderGone(leader: Option<Candidate>, status: Status) {
    leader.None? || leader.value.name != status.leaderName
  }

  /** The pod was scheduled to another node than the leader's. */
  predicate Moved(leader: Option<Candidate>, status: Status, pod: Pod) {
    !LeaderGone(leader, status) && pod.spec.node != "" && pod.spec.node != leader.value.spec.node
  }

  /** The operator's deletion: the pod carries its mark, the status has forgotten leader and pod, and of the
      calculated books only the mark of a pod that moved is new. */
  predicate Dropped(sk: Sidekick, pod: Pod, calculated: Status, moved: bool, w: World) {
    && w.sidekick.Some? && w.sidekick.value == sk.(status := w.sidekick.value.status)
    && w.pod == Some(pod.(deleting := true,
                          annotations := pod.annotations[KeyDeletionInitiator := Text("sidekick-operator")]))
    && (var st := w.sidekick.value.status;
        && st.leaderName == "" && st.podPhase == PhaseUnset && st.observedGeneration == sk.generation
        && st.phase == calculated.phase && st.restarts == calculated.restarts
        && st.failures == if moved then calculated.failures[pod.uid := true] else calculated.failures)
  }

  /** A new pod: its annotations are the Sidekick's with the two stamps, it is held by the finalizer, pending,
      on the leader's node; and the status names leader, pod phase and generation. */
  predicate Made(sk: Sidekick, leader: Candidate, uid: Uid, calculated: Status, w: World) {
    && w.sidekick == Some(sk.(status := calculated.(leaderName := leader.name, podPhase := PodPending,
                                                    observedGeneration := sk.generation)))
    && w.pod.Some?
    && var pod := w.pod.value;
       && pod.uid == uid && pod.finalizer && !pod.deleting && pod.phase == PodPending
       && pod.statuses == [] && pod.initStatuses == [] && pod.spec.node == leader.spec.node
       && pod.annotations.Keys == sk.annotations.Keys + {KeyHash, KeyLeader}
       && pod.annotations[KeyHash] == HashOf(sk) && pod.annotations[KeyLeader] == Text(leader.name)
       && (forall k | k in sk.annotations && k != KeyHash && k != KeyLeader :: pod.annotations[k] == sk.annotations[k])
       && BuildSpec(sk.spec, leader) == Ok(pod.spec)
  }

  lemma StaleIff(sk: Sidekick, leader: Candidate, pod: Pod)
    ensures PodNeedsRecreate(sk, leader, pod) <==> Stale(sk, leader, pod)
  {
  }

  /** In a final phase the call stores the calculated status and stops; failing, it fails a running pod. */
  lemma StopsWhenEnded(w: World, sk: Sidekick, uid: Uid)
    requires w.sidekick == Some(sk) && Ended(Calculate(sk.spec, sk.status, w.pod).phase)
    ensures var o := Advance(w, sk, uid);
            var status := Calculate(sk.spec, sk.status, w.pod);
            && o.event == Quiet && o.world.candidates == w.candidates
            && o.world.sidekick == Some(sk.(status := status))
            && (if status.phase == SkFailed && w.pod.Some? && w.pod.value.phase == PodRunning
                then o.world.pod == Some(w.pod.value.(phase := PodFailed)) else o.world.pod == w.pod)
  {
  }

  /** The kept pod and the status that shows it. */
  predicate Kept(sk: Sidekick, pod: Pod, o: Outcome) {
    && o.event == Quiet && o.world.pod == Some(pod)
    && o.world.sidekick
       == Some(sk.(status := sk.status.(podPhase := pod.phase, observedGeneration := sk.generation)))
  }

  lemma SyncDropsOrKeeps(w: World, sk: Sidekick, leader: Candidate, pod: Pod)
    requires w.sidekick == Some(sk) && w.pod == Some(pod) && leader.name == sk.status.leaderName
    ensures var o := SyncExistingPod(w, sk, leader, pod);
            if Stale(sk, leader, pod)
            then && o.event.Deleted? && o.event.uid == pod.uid
                 && Dropped(sk, pod, sk.status, Moved(Some(leader), sk.status, pod), o.world)
            else Kept(sk, pod, o)
  {
    StaleIff(sk, leader, pod);
  }

  lemma DropOrKeep(w: World, sk: Sidekick, leader: Option<Candidate>, uid: Uid)
    requires w.sidekick == Some(sk) && w.pod.Some?
    ensures var o, pod := Follow(w, sk, leader, uid), w.pod.value;
            if LeaderGone(leader, sk.status) || Stale(sk, leader.value, pod)
            then && o.event.Deleted? && o.event.uid == pod.uid
                 && Dropped(sk, pod, sk.status, Moved(leader, sk.status, pod), o.world)
            else Kept(sk, pod, o)
  {
    if !LeaderGone(leader, sk.status) {
      SyncDropsOrKeeps(w, sk, leader.value, w.pod.value);
    }
  }

  /** With a pod, in no final phase: it is deleted if and only if the leader is gone or another, or the pod
      is stale; otherwise it is kept, and the status shows its phase. */
  lemma DropsOrKeeps(w: World, sk: Sidekick, uid: Uid)
    requires w.sidekick == Some(sk) && w.pod.Some? && !Ended(Calculate(sk.spec, sk.status, w.pod).phase)
    ensures var o, pod := Advance(w, sk, uid), w.pod.value;
            var status := Calculate(sk.spec, sk.status, w.pod);
            var leader := GetLeader(sk.spec.leader, w.candidates);
            && (o.event.Deleted? <==> LeaderGone(leader, status) || Stale(sk, leader.value, pod))
            && (o.event.Deleted? ==> o.event.uid == pod.uid)
            && (o.event.Deleted? ==> Dropped(sk, pod, status, Moved(leader, status, pod), o.world))
            && (!o.event.Deleted? ==>
                  && o.event == Quiet && o.world.pod == w.pod
                  && o.world.sidekick == Some(sk.(status := status.(podPhase := pod.phase,
                                                                    observedGeneration := sk.generation))))
  {
    var sk' := sk.(status := Calculate(sk.spec, sk.status, w.pod));
    assert HashOf(sk') == HashOf(sk);
    DropOrKeep(w.(sidekick := Some(sk')), sk', GetLeader(sk.spec.leader, w.candidates), uid);
  }

  lemma CreationMakes(w: World, sk: Sidekick, leader: Candidate, spec: PodSpec, uid: Uid)
    requires BuildSpec(sk.spec, leader) == Ok(spec) && spec.node == leader.spec.node
    ensures var o := CreateBuilt(w, sk, leader, Ok(spec), uid);
            o.event == Created(uid) && Made(sk, leader, uid, sk.status, o.world)
  {
  }

  lemma MakeOrWait(w: World, sk: Sidekick, leader: Option<Candidate>, uid: Uid)
    requires w.sidekick == Some(sk) && w.pod.None?
    ensures var o := Follow(w, sk, leader, uid);
            if leader.Some? && BuildSpec(sk.spec, leader.value).Ok?
            then o.event == Created(uid) && Made(sk, leader.value, uid, sk.status, o.world)
            else o == Outcome(w, Quiet)
  {
    if leader.Some? && BuildSpec(sk.spec, leader.value).Ok? {
      BuildMeaning(sk.spec, leader.value);
      CreationMakes(w, sk, leader.value, BuildSpec(sk.spec, leader.value).value, uid);
    }
  }

  /** Without a pod, in no final phase: one is created if and only if there is a leader on which every
      name-only mount can be resolved; otherwise only the calculated status is stored. */
  lemma MakesOrWaits(w: World, sk: Sidekick, uid: Uid)
    requires w.sidekick == Some(sk) && w.pod.None? && !Ended(Calculate(sk.spec, sk.status, w.pod).phase)
    ensures var o := Advance(w, sk, uid);
            var status := Calculate(sk.spec, sk.status, w.pod);
            var leader := GetLeader(sk.spec.leader, w.candidates);
            && (o.event.Created? <==>
                  && leader.Some? && AllResolvable(leader.value, sk.spec.containers)
                  && AllResolvable(leader.value, sk.spec.initContainers))
            && (o.event.Created? ==> o.event == Created(uid) && Made(sk, leader.value, uid, status, o.world))
            && (!o.event.Created? ==> o == Outcome(w.(sidekick := Some(sk.(status := status))), Quiet))
  {
    var sk' := sk.(status := Calculate(sk.spec, sk.status, w.pod));
    assert HashOf(sk') == HashOf(sk);
    var leader := GetLeader(sk.spec.leader, w.candidates);
    if leader.Some? {
      BuildMeaning(sk.spec, leader.value);
    }
    MakeOrWait(w.(sidekick := Some(sk')), sk', leader, uid);
  }

  /** The Sidekick with a mark for this pod, if its deletion by somebody else is to be counted. */
  function Counting(sk: Sidekick, pod: Option<Pod>): Sidekick {
    if pod.Some? && pod.value.deleting && KeyDeletionInitiator !in pod.value.annotations && !sk.deleting
    then sk.(status := sk.status.(failures := sk.status.failures[pod.value.uid := true])) else sk
  }

  /** How a reconcile begins. A terminating pod with the finalizer loses it, its deletion is counted if
      nobody of the operator's did it, and that is all. A Sidekick under deletion takes its pod along and
      loses its finalizer, and with it goes unless somebody else holds it; a live one gets the finalizer. The
      rest is `Advance`. */
  lemma ReconcileBegins(w: World, uid: Uid)
    ensures var o := ReconcileWorld(w, uid);
            if w.pod.Some? && w.pod.value.deleting && w.pod.value.finalizer then
              && o.event == Quiet && o.world.candidates == w.candidates
              && o.world.pod == Some(w.pod.value.(finalizer := false))
              && o.world.sidekick == (if w.sidekick.Some? then Some(Counting(w.sidekick.value, w.pod)) else None)
            else if w.sidekick.None? || (w.sidekick.value.deleting && !w.sidekick.value.finalizer) then
              o == Outcome(w, Quiet)
            else
              var sk := Counting(w.sidekick.value, w.pod);
              if sk.deleting then
                var gone := if w.pod.Some? then Some(w.pod.value.(deleting := true)) else None;
                var sk' := sk.(finalizer := false);
                if sk.foreignFinalizers then o == Advance(w.(sidekick := Some(sk'), pod := gone), sk', uid)
                else o == Outcome(w.(sidekick := None, pod := gone), Quiet)
              else
                var sk' := sk.(finalizer := true);
                o == Advance(w.(sidekick := Some(sk')), sk', uid)
  {
  }

  /** Whenever a reconcile deletes the pod: leader and pod phase are cleared, the generation is observed, and
      phase, restarts and all other failure entries are the calculated ones. */
  lemma DeletedMeaning(w: World, uid: Uid)
    requires ReconcileWorld(w, uid).event.Deleted?
    ensures w.sidekick.Some? && w.pod.Some?
    ensures var sk := Counting(w.sidekick.value, w.pod);
            var sk' := sk.(finalizer := !sk.deleting);
            var pod := if sk.deleting then w.pod.value.(deleting := true) else w.pod.value;
            var status := Calculate(sk.spec, sk.status, Some(pod));
            Dropped(sk', pod, status, Moved(GetLeader(sk.spec.leader, w.candidates), status, pod),
              ReconcileWorld(w, uid).world)
  {
    ReconcileBegins(w, uid);
    var sk := Counting(w.sidekick.value, w.pod);
    var sk' := sk.(finalizer := !sk.deleting);
    var pod := if sk.deleting && w.pod.Some? then Some(w.pod.value.(deleting := true)) else w.pod;
    var w' := w.(sidekick := Some(sk'), pod := pod);
    if Ended(Calculate(sk'.spec, sk'.status, pod).phase) {
      StopsWhenEnded(w', sk', uid);
    } else if pod.Some? {
      DropsOrKeeps(w', sk', uid);
    } else {
      MakesOrWaits(w', sk', uid);
    }
  }
}
