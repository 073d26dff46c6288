/**
 The retry bound: with a policy other than Always, the number of pods ever created for a Sidekick
 is at most BackoffLimit + 1 plus the uncounted operator deletions.
 */
module RetryBound {
  import opened Kube
  import opened Backoff
  import opened Phase
  import opened Leader
  import opened PodBuilder
  import opened Reconcile
  import opened Runs
  import opened Sets

  /** The loss of pod u is accounted for: it counts as a failure, or it was the operator's choice. */
  ghost predicate Accounted(h: History, u: Uid)
    requires h.world.sidekick.Some?
  {
    u in h.uncounted || Marked(h.world.sidekick.value.status.failures, u)
  }

  /** Every pod but the present one is accounted for; so is a present pod that may vanish or whose
      deletion carries the operator's mark. */
  ghost predicate Books(h: History, alone: bool) {
    var w := h.world;
    && (w.pod.Some? && !w.pod.value.deleting
        ==> w.pod.value.finalizer && KeyDeletionInitiator !in w.pod.value.annotations)
    && (w.sidekick.Some? ==>
          var sk := w.sidekick.value;
          && KeyDeletionInitiator !in sk.annotations
          && (alone && sk.deleting ==> !sk.foreignFinalizers)
          && (!sk.deleting ==>
                && (forall u | u in h.created :: Accounted(h, u) || (w.pod.Some? && w.pod.value.uid == u))
                && (w.pod.Some? ==>
                      var pod := w.pod.value;
                      && Lookup(pod.annotations, KeyHash) == HashOf(sk)
                      && (KeyDeletionInitiator in pod.annotations || (pod.deleting && !pod.finalizer)
                          ==> Accounted(h, pod.uid)))))
  }

  function Allowance(limit: int): nat { if limit < 0 then 0 else limit + 1 }

  /** A Sidekick that another controller holds may get one more pod while it is terminated. */
  function Extra(h: History, alone: bool): nat {
    var w := h.world;
    if !alone && (w.sidekick.None? || (w.sidekick.value.deleting && !w.sidekick.value.finalizer)) then 1 else 0
  }

  ghost predicate Bounded(h: History, limit: int, alone: bool) {
    && |h.created| <= Allowance(limit) + |h.uncounted| + Extra(h, alone)
    && (h.world.sidekick.Some? ==>
          BackoffLimit(h.world.sidekick.value.spec) == limit && h.world.sidekick.value.spec.policy != Always)
  }

  ghost predicate Inv(h: History, limit: int, alone: bool) {
    Base(h) && Books(h, alone) && Bounded(h, limit, alone)
  }

  // ------------------------------------------------------ one step at a time

  lemma UncountedGrows(h: History, u: Uid)
    ensures |h.uncounted| <= |h.uncounted + {u}|
  {
    if u in h.uncounted {
      assert h.uncounted + {u} == h.uncounted;
    }
  }

  /** Deleting the pod keeps the books if the deletion is an uncounted one or the pod is marked. */
  lemma DeleteKeeps(h: History, sk: Sidekick, status: Status, reason: Reason, limit: int, alone: bool)
    requires Inv(h, limit, alone) && h.world.sidekick == Some(sk) && !sk.deleting && h.world.pod.Some?
    requires forall u | Marked(sk.status.failures, u) :: Marked(status.failures, u)
    requires Uncounted(reason) || h.world.pod.value.uid in h.uncounted || Marked(status.failures, h.world.pod.value.uid)
    ensures var h' := Record(h, DeletePodAndResetStatus(h.world, sk, status, h.world.pod.value, reason));
            Books(h', alone) && Bounded(h', limit, alone)
  {
    var pod := h.world.pod.value;
    var h' := Record(h, DeletePodAndResetStatus(h.world, sk, status, pod, reason));
    UncountedGrows(h, pod.uid);
    assert Accounted(h', pod.uid);
    assert forall u | u in h.created && Accounted(h, u) :: Accounted(h', u);
  }

  lemma KeepKeeps(h: History, sk: Sidekick, leader: Candidate, limit: int, alone: bool)
    requires Inv(h, limit, alone) && h.world.sidekick == Some(sk) && h.world.pod.Some?
    requires !PodNeedsRecreate(sk, leader, h.world.pod.value)
    ensures var h' := Record(h, SyncExistingPod(h.world, sk, leader, h.world.pod.value));
            Books(h', alone) && Bounded(h', limit, alone)
  {
    var h' := Record(h, SyncExistingPod(h.world, sk, leader, h.world.pod.value));
    assert forall u :: Accounted(h', u) == Accounted(h, u);
    assert HashOf(h'.world.sidekick.value) == HashOf(sk);
  }

  lemma SyncKeeps(h: History, sk: Sidekick, leader: Candidate, limit: int, alone: bool)
    requires Inv(h, limit, alone) && h.world.sidekick == Some(sk) && !sk.deleting && h.world.pod.Some?
    requires h.world.pod.value.deleting ==> !h.world.pod.value.finalizer
    requires h.world.pod.value.phase == PodFailed && sk.spec.policy == Never && !h.world.pod.value.deleting
             ==> Marked(sk.status.failures, h.world.pod.value.uid)
    ensures var h' := Record(h, SyncExistingPod(h.world, sk, leader, h.world.pod.value));
            Books(h', alone) && Bounded(h', limit, alone)
  {
    var pod := h.world.pod.value;
    if !PodNeedsRecreate(sk, leader, pod) {
      KeepKeeps(h, sk, leader, limit, alone);
    } else {
      var reason := RecreateReason(sk, leader, pod);
      assert reason != SpecChanged;
      if reason == NodeMoved {
        DeleteKeeps(h, sk, sk.status.(failures := sk.status.failures[pod.uid := true]), reason, limit, alone);
      } else {
        assert pod.deleting ==> Accounted(h, pod.uid);
        DeleteKeeps(h, sk, sk.status, reason, limit, alone);
      }
    }
  }

  /** With no pod left, everything created so far is marked or uncounted, so the failures alone
      leave room for one more pod. */
  lemma RoomForOneMore(h: History, sk: Sidekick, limit: int, alone: bool)
    requires Inv(h, limit, alone) && h.world.sidekick == Some(sk) && !sk.deleting && h.world.pod.None?
    requires |TrueKeys(sk.status.failures)| <= limit
    ensures |h.created| + 1 <= Allowance(limit) + |h.uncounted|
  {
    var marked := TrueKeys(sk.status.failures);
    forall u | u in h.created ensures u in marked + h.uncounted {
      assert Accounted(h, u);
    }
    assert h.created <= marked + h.uncounted;
    SubsetSize(h.created, marked + h.uncounted);
    UnionSize(marked, h.uncounted);
  }

  lemma CreateKeeps(h: History, sk: Sidekick, leader: Candidate, built: Result<PodSpec>, uid: Uid,
                    limit: int, alone: bool)
    requires Inv(h, limit, alone) && h.world.sidekick == Some(sk) && !sk.deleting && h.world.pod.None?
    requires uid !in h.created
    requires |TrueKeys(sk.status.failures)| <= limit
    ensures var h' := Record(h, CreateBuilt(h.world, sk, leader, built, uid));
            Books(h', alone) && Bounded(h', limit, alone)
  {
    RoomForOneMore(h, sk, limit, alone);
    var h' := Record(h, CreateBuilt(h.world, sk, leader, built, uid));
    assert forall u | u in h.created :: Accounted(h, u) && Accounted(h', u);
  }

  lemma FollowKeeps(h: History, sk: Sidekick, leader: Option<Candidate>, uid: Uid, limit: int, alone: bool)
    requires Inv(h, limit, alone) && h.world.sidekick == Some(sk) && !sk.deleting && uid !in h.created
    requires |TrueKeys(sk.status.failures)| <= limit
    requires h.world.pod.Some? ==>
               && (h.world.pod.value.deleting ==> !h.world.pod.value.finalizer)
               && (h.world.pod.value.phase == PodFailed && sk.spec.policy == Never && !h.world.pod.value.deleting
                   ==> Marked(sk.status.failures, h.world.pod.value.uid))
    ensures var h' := Record(h, Follow(h.world, sk, leader, uid));
            Books(h', alone) && Bounded(h', limit, alone)
  {
    if h.world.pod.Some? {
      DeleteKeeps(h, sk, sk.status, if leader.None? then LeaderLost else LeaderChanged, limit, alone);
      if leader.Some? {
        SyncKeeps(h, sk, leader.value, limit, alone);
      }
    } else if leader.Some? {
      CreateKeeps(h, sk, leader.value, BuildSpec(sk.spec, leader.value), uid, limit, alone);
    }
  }

  lemma CalculateKeeps(h: History, sk: Sidekick, limit: int, alone: bool)
    requires Inv(h, limit, alone) && h.world.sidekick == Some(sk) && !sk.deleting && Fits(sk.status, h.world.pod, 1)
    requires h.world.pod.Some? && h.world.pod.value.deleting ==> !h.world.pod.value.finalizer
    ensures Inv(Stored(h, sk, Calculate(sk.spec, sk.status, h.world.pod)), limit, alone)
    ensures var status := Calculate(sk.spec, sk.status, h.world.pod);
            && (status.phase != SkFailed && status.phase != SkSucceeded ==> |TrueKeys(status.failures)| <= limit)
            && (sk.spec.policy == Never && h.world.pod.Some? && h.world.pod.value.phase == PodFailed ==>
                  !h.world.pod.value.deleting ==> Marked(status.failures, h.world.pod.value.uid))
  {
    var pod := h.world.pod;
    var status := Calculate(sk.spec, sk.status, pod);
    CalculateKeepsBase(h, sk);
    OverLimitExact(sk.spec, sk.status, pod);
    CurrentRestartsGrow(sk.status, pod);
    SumMapNonNegative(status.restarts);
    forall u | u in h.created && Accounted(h, u)
      ensures Accounted(Stored(h, sk, Calculate(sk.spec, sk.status, h.world.pod)), u)
              || (pod.Some? && !pod.value.deleting && pod.value.uid == u)
    {
      if pod.Some? && pod.value.deleting {
        ObserveDeleting(sk.spec, sk.status, pod.value);
      } else if pod.None? || pod.value.uid != u {
        ObserveFrame(sk.spec, sk.status, pod, u);
      }
    }
  }

  lemma ProceedKeeps(h: History, sk: Sidekick, status: Status, uid: Uid, limit: int, alone: bool)
    requires Inv(Stored(h, sk, status), limit, alone) && !sk.deleting && uid !in h.created
    requires !(status.phase == SkFailed || status.phase == SkSucceeded) ==> |TrueKeys(status.failures)| <= limit
    requires h.world.pod.Some? ==>
               && (h.world.pod.value.deleting ==> !h.world.pod.value.finalizer)
               && (h.world.pod.value.phase == PodFailed && sk.spec.policy == Never && !h.world.pod.value.deleting
                   ==> Marked(status.failures, h.world.pod.value.uid))
    ensures var h' := Record(h, Proceed(h.world, sk, status, uid)); Books(h', alone) && Bounded(h', limit, alone)
  {
    var h1 := Stored(h, sk, status);
    var sk1 := sk.(status := status);
    if status.phase == SkFailed {
      FailPodKeeps(h1, limit, alone);
    } else if status.phase != SkSucceeded {
      FollowKeeps(h1, sk1, GetLeader(sk1.spec.leader, h1.world.candidates), uid, limit, alone);
    }
  }

  lemma AdvanceKeeps(h: History, sk: Sidekick, uid: Uid, limit: int, alone: bool)
    requires Inv(h, limit, alone) && h.world.sidekick == Some(sk) && !sk.deleting && Fits(sk.status, h.world.pod, 1)
    requires h.world.pod.Some? && h.world.pod.value.deleting ==> !h.world.pod.value.finalizer
    requires uid !in h.created
    ensures var h' := Record(h, Advance(h.world, sk, uid)); Books(h', alone) && Bounded(h', limit, alone)
  {
    CalculateKeeps(h, sk, limit, alone);
    ProceedKeeps(h, sk, Calculate(sk.spec, sk.status, h.world.pod), uid, limit, alone);
  }

  lemma FailPodKeeps(h: History, limit: int, alone: bool)
    requires Inv(h, limit, alone)
    ensures h.world.pod.Some?
            ==> Inv(h.(world := h.world.(pod := Some(h.world.pod.value.(phase := PodFailed)))), limit, alone)
  {
    if h.world.pod.Some? {
      var h' := h.(world := h.world.(pod := Some(h.world.pod.value.(phase := PodFailed))));
      if h.world.sidekick.Some? {
        assert forall u :: Accounted(h', u) == Accounted(h, u);
      }
    }
  }

  /** A Sidekick from which the terminating reconcile has just taken the operator's finalizer. */
  ghost predicate Released(h: History, sk: Sidekick, limit: int) {
    && Books(h, false) && h.world.sidekick == Some(sk) && sk.deleting && !sk.finalizer
    && |h.created| <= Allowance(limit) + |h.uncounted| && BackoffLimit(sk.spec) == limit && sk.spec.policy != Always
  }

  lemma ReleasedStays(h: History, sk: Sidekick, status: Status)
    ensures forall limit | Released(h, sk, limit) :: Released(Stored(h, sk, status), sk.(status := status), limit)
  {
  }

  /** Storing a status and failing the pod. */
  lemma ReleasedIsBounded(h: History, sk: Sidekick, status: Status, limit: int)
    requires Released(h, sk, limit)
    ensures var h1 := Stored(h, sk, status);
            && Books(h1, false) && Bounded(h1, limit, false)
            && (h.world.pod.Some? ==>
                  var h2 := h1.(world := h1.world.(pod := Some(h.world.pod.value.(phase := PodFailed))));
                  Books(h2, false) && Bounded(h2, limit, false))
  {
  }

  lemma ReleasedDeleteKeeps(h: History, sk: Sidekick, status: Status, reason: Reason, limit: int)
    requires Released(h, sk, limit) && h.world.pod.Some?
    ensures var h' := Record(h, DeletePodAndResetStatus(h.world, sk, status, h.world.pod.value, reason));
            Books(h', false) && Bounded(h', limit, false)
  {
    UncountedGrows(h, h.world.pod.value.uid);
  }

  lemma ReleasedCreateKeeps(h: History, sk: Sidekick, leader: Candidate, built: Result<PodSpec>, uid: Uid, limit: int)
    requires Released(h, sk, limit) && uid !in h.created
    ensures var h' := Record(h, CreateBuilt(h.world, sk, leader, built, uid));
            Books(h', false) && Bounded(h', limit, false)
  {
  }

  lemma ReleasedSyncKeeps(h: History, sk: Sidekick, leader: Candidate, limit: int)
    requires Released(h, sk, limit) && h.world.pod.Some?
    ensures var h' := Record(h, SyncExistingPod(h.world, sk, leader, h.world.pod.value));
            Books(h', false) && Bounded(h', limit, false)
  {
    var pod := h.world.pod.value;
    var reason := RecreateReason(sk, leader, pod);
    if leader.spec.node != pod.spec.node && pod.spec.node != "" {
      ReleasedDeleteKeeps(h, sk, sk.status.(failures := sk.status.failures[pod.uid := true]), reason, limit);
    } else {
      ReleasedDeleteKeeps(h, sk, sk.status, reason, limit);
    }
  }

  lemma ReleasedFollowKeeps(h: History, sk: Sidekick, leader: Option<Candidate>, uid: Uid, limit: int)
    requires Released(h, sk, limit) && uid !in h.created
    ensures var h' := Record(h, Follow(h.world, sk, leader, uid));
            Books(h', false) && Bounded(h', limit, false)
  {
    if h.world.pod.Some? {
      ReleasedDeleteKeeps(h, sk, sk.status, if leader.None? then LeaderLost else LeaderChanged, limit);
      if leader.Some? {
        ReleasedSyncKeeps(h, sk, leader.value, limit);
      }
    } else if leader.Some? {
      ReleasedCreateKeeps(h, sk, leader.value, BuildSpec(sk.spec, leader.value), uid, limit);
    }
  }

  /** The terminating reconcile of a Sidekick that somebody else holds adds at most one pod. */
  lemma ReleasedProceedKeeps(h: History, sk: Sidekick, status: Status, uid: Uid, limit: int)
    requires Released(h, sk, limit) && uid !in h.created
    ensures var h' := Record(h, Proceed(h.world, sk, status, uid)); Books(h', false) && Bounded(h', limit, false)
  {
    var sk1 := sk.(status := status);
    ReleasedStays(h, sk, status);
    if status.phase == SkFailed || status.phase == SkSucceeded {
      ReleasedIsBounded(h, sk, status, limit);
    } else {
      var h1 := Stored(h, sk, status);
      ReleasedFollowKeeps(h1, sk1, GetLeader(sk1.spec.leader, h1.world.candidates), uid, limit);
    }
  }

  lemma SidekickKeeps(h: History, uid: Uid, limit: int, alone: bool)
    requires Inv(h, limit, alone) && uid !in h.created
    requires h.world.sidekick.Some? ==> Fits(h.world.sidekick.value.status, h.world.pod, 1)
    requires h.world.pod.Some? && h.world.pod.value.deleting ==> !h.world.pod.value.finalizer
    ensures var h' := Record(h, ReconcileSidekick(h.world, uid)); Books(h', alone) && Bounded(h', limit, alone)
  {
    if h.world.sidekick.Some? && !h.world.sidekick.value.deleting {
      var sk' := h.world.sidekick.value.(finalizer := true);
      var h' := h.(world := h.world.(sidekick := Some(sk')));
      assert forall u :: Accounted(h', u) == Accounted(h, u);
      assert HashOf(sk') == HashOf(h.world.sidekick.value);
      AdvanceKeeps(h', sk', uid, limit, alone);
    } else if h.world.sidekick.Some? && h.world.sidekick.value.finalizer && h.world.sidekick.value.foreignFinalizers {
      var sk' := h.world.sidekick.value.(finalizer := false);
      var pod := if h.world.pod.Some? then Some(h.world.pod.value.(deleting := true)) else None;
      ReleasedProceedKeeps(h.(world := h.world.(sidekick := Some(sk'), pod := pod)), sk',
        Calculate(sk'.spec, sk'.status, pod), uid, limit);
    }
  }

  /** Counting an external deletion puts the pod on the books, so its finalizer may go. */
  lemma CountedBooks(h: History, limit: int, alone: bool)
    requires Inv(h, limit, alone) && Small(h) && h.world.pod.Some? && h.world.pod.value.deleting
    ensures Inv(Counted(h), limit, alone)
    ensures h.world.sidekick.Some? && !h.world.sidekick.value.deleting ==> Accounted(Counted(h), h.world.pod.value.uid)
  {
    CountedKeeps(h);
    if h.world.sidekick.Some? {
      assert forall u | Accounted(h, u) :: Accounted(Counted(h), u);
      assert HashOf(Counted(h).world.sidekick.value) == HashOf(h.world.sidekick.value);
    }
  }

  lemma ReconcileKeeps(h: History, uid: Uid, limit: int, alone: bool)
    requires Inv(h, limit, alone) && Small(h) && uid !in h.created
    ensures var h' := Record(h, ReconcileWorld(h.world, uid)); Books(h', alone) && Bounded(h', limit, alone)
  {
    if h.world.pod.Some? && h.world.pod.value.deleting {
      CountedBooks(h, limit, alone);
      CountedKeeps(h);
      var h1 := Counted(h);
      if h.world.pod.value.finalizer {
        var h2 := h1.(world := h1.world.(pod := Some(h.world.pod.value.(finalizer := false))));
        if h1.world.sidekick.Some? {
          assert forall u :: Accounted(h2, u) == Accounted(h1, u);
        }
      } else {
        SidekickKeeps(h1, uid, limit, alone);
      }
    } else {
      SidekickKeeps(h, uid, limit, alone);
    }
  }

  lemma StepKeeps(h: History, a: Action, limit: int, alone: bool)
    requires Inv(h, limit, alone) && Small(h) && Enabled(h, a)
    requires alone && Apply(h, a).world.sidekick.Some? && Apply(h, a).world.sidekick.value.deleting
             ==> !Apply(h, a).world.sidekick.value.foreignFinalizers
    ensures Inv(Apply(h, a), limit, alone)
  {
    StepKeepsBase(h, a);
    if a.DoReconcile? {
      ReconcileKeeps(h, a.uid, limit, alone);
    } else {
      EnvironmentKeeps(h, a, limit, alone);
    }
  }

  lemma EnvironmentKeeps(h: History, a: Action, limit: int, alone: bool)
    requires Inv(h, limit, alone) && Enabled(h, a) && !a.DoReconcile?
    requires alone && Apply(h, a).world.sidekick.Some? && Apply(h, a).world.sidekick.value.deleting
             ==> !Apply(h, a).world.sidekick.value.foreignFinalizers
    ensures Books(Apply(h, a), alone) && Bounded(Apply(h, a), limit, alone)
  {
    var h' := Apply(h, a);
    if h'.world.sidekick.Some? {
      assert forall u :: Accounted(h', u) == Accounted(h, u);
      if !h'.world.sidekick.value.deleting {
        assert HashOf(h'.world.sidekick.value) == HashOf(h.world.sidekick.value);
      }
    }
  }

  // ------------------------------------------------------------ whole runs

  /** No other controller holds the Sidekick once it is being deleted. */
  ghost predicate OwnedAlone(h: History, acts: seq<Action>)
    requires Run(h, acts)
    decreases |acts|
  {
    && (h.world.sidekick.Some? && h.world.sidekick.value.deleting ==> !h.world.sidekick.value.foreignFinalizers)
    && (acts != [] ==> OwnedAlone(Apply(h, acts[0]), acts[1..]))
  }

  lemma {:induction false} RunKeeps(h: History, acts: seq<Action>, limit: int, alone: bool)
    requires Run(h, acts) && (alone ==> OwnedAlone(h, acts)) && Inv(h, limit, alone)
    ensures Inv(End(h, acts), limit, alone)
    decreases |acts|
  {
    if acts != [] {
      StepKeeps(h, acts[0], limit, alone);
      RunKeeps(Apply(h, acts[0]), acts[1..], limit, alone);
    }
  }

  /** Retry bound. In every run of a Sidekick whose policy is not Always and whose annotations do
      not carry the deletion-initiator key, created pods are at most BackoffLimit + 1 (none for a
      negative limit, a missing limit counting as 0) plus the operator's uncounted deletions; and
      every pod that is gone or may go counts as a failure or is one of those deletions. One pod
      more is possible only if another controller holds the Sidekick while it is deleted. */
  lemma RetryBoundHolds(h: History, acts: seq<Action>)
    requires Initial(h) && Run(h, acts)
    requires h.world.sidekick.value.spec.policy != Always
    requires KeyDeletionInitiator !in h.world.sidekick.value.annotations
    ensures var allowed := match h.world.sidekick.value.spec.backoffLimit
                           case None => 1
                           case Some(limit) => if limit < 0 then 0 else limit + 1;
            var bound := allowed + |End(h, acts).uncounted|;
            |End(h, acts).created| <= if OwnedAlone(h, acts) then bound else bound + 1
    ensures Books(End(h, acts), false)
  {
    var limit := BackoffLimit(h.world.sidekick.value.spec);
    RunKeeps(h, acts, limit, false);
    if OwnedAlone(h, acts) {
      RunKeeps(h, acts, limit, true);
    }
  }
}
