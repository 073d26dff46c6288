/**
 Where the retry bound ends. Pods inherit the Sidekick's annotations, so a Sidekick that carries
 the deletion-initiator key itself is retried without any bound; a Sidekick that another controller
 holds can get one pod too many while it is deleted; and a total that leaves the int32 range counts
 as small again.
 */
module RetryLimits {
  import opened Kube
  import opened Backoff
  import opened Phase
  import opened Leader
  import opened Reconcile
  import opened Runs
  import opened RetryBound
  import opened Scenarios
  import opened Sets

  lemma InitialLedger(h: History, small: bool)
    requires Initial(h)
    ensures Ledger(h, 0, 0) && forall t | t + 2 <= INT32_MAX :: Room(h, t, small)
  {
    assert TrueKeys(map[]) == {};
  }

  /** A fitting leader turns up. */
  lemma OfferRun(h: History, small: bool) returns (acts: seq<Action>, e: History)
    requires Initial(h) && Willing(h)
    ensures Reaches(h, acts, e, small) && Initial(e) && Retryable(e) && e.world.sidekick == h.world.sidekick
  {
    var spec := h.world.sidekick.value.spec;
    var offer := CandidatesChange([FittingLeader(spec)]);
    FittingLeaderServes(spec);
    e := Apply(h, offer);
    InitialLedger(h, small);
    InitialLedger(e, small);
    IdleIsSmall(h, 0, 0, small);
    IdleIsSmall(e, 0, 0, small);
    Prepend(h, offer, [], e, small);
    acts := [offer] + [];
  }

  // ------------------------------------------------------------------ the deletion-initiator key

  /** With the key on the Sidekick, k pods are created and lost without any of them counting. */
  lemma UncountedRetries(h: History, k: nat) returns (acts: seq<Action>)
    requires Initial(h) && Willing(h) && KeyDeletionInitiator in h.world.sidekick.value.annotations
    ensures Run(h, acts) && Legal(h, acts) && After(h, acts) == End(h, acts) && SameHolders(acts)
    ensures |End(h, acts).created| == k && End(h, acts).uncounted == {}
    ensures End(h, acts).world.sidekick.Some? && !End(h, acts).world.sidekick.value.deleting
  {
    var offer, m := OfferRun(h, true);
    InitialLedger(m, true);
    var cycles, e := UncountedCycles(m, 0, k, true);
    Append(h, offer, m, cycles, e, true);
    acts := offer + cycles;
    ReachesRun(h, acts, e);
    ReachesLegal(h, acts, e, true);
  }

  /** Deleting never happens in a run that ends with a Sidekick that is not being deleted. */
  lemma {:induction false} NeverDeleted(h: History, acts: seq<Action>)
    requires Run(h, acts) && End(h, acts).world.sidekick.Some? && !End(h, acts).world.sidekick.value.deleting
    ensures OwnedAlone(h, acts)
    ensures h.world.sidekick.Some? && !h.world.sidekick.value.deleting
    decreases |acts|
  {
    if acts != [] {
      NeverDeleted(Apply(h, acts[0]), acts[1..]);
      DeletionStays(h, acts[0]);
    }
  }

  lemma DeletionStays(h: History, a: Action)
    requires Enabled(h, a)
    ensures !Alive(h.world) ==> !Alive(Apply(h, a).world)
  {
    if a.DoReconcile? {
      DeletedStaysDeleted(h.world, a.uid);
      if h.world.pod.Some? {
        DeletedStaysDeleted(Counted(h).world, a.uid);
      }
    }
  }

  lemma DeletedStaysDeleted(w: World, uid: Uid)
    ensures !Alive(w) ==> !Alive(ReconcileSidekick(w, uid).world)
  {
    if w.sidekick.Some? && w.sidekick.value.deleting {
      var sk := w.sidekick.value.(finalizer := false);
      var pod := if w.pod.Some? then Some(w.pod.value.(deleting := true)) else None;
      AdvanceKeepsMarks(w.(sidekick := Some(sk), pod := pod), sk, uid);
    }
  }

  ghost predicate WithinBound(h: History, acts: seq<Action>)
    requires Run(h, acts) && h.world.sidekick.Some?
  {
    |End(h, acts).created| <= Allowance(BackoffLimit(h.world.sidekick.value.spec)) + |End(h, acts).uncounted|
  }

  /** For a Sidekick that can be retried at all, the retry bound holds on every run in which nobody
      else holds it during deletion exactly when its annotations lack the deletion-initiator key. */
  lemma RetryBoundIff(h: History)
    requires Initial(h) && Willing(h)
    ensures (forall acts | Run(h, acts) && OwnedAlone(h, acts) :: WithinBound(h, acts))
            <==> KeyDeletionInitiator !in h.world.sidekick.value.annotations
  {
    if KeyDeletionInitiator in h.world.sidekick.value.annotations {
      var acts := UncountedRetries(h, Allowance(BackoffLimit(h.world.sidekick.value.spec)) + 1);
      NeverDeleted(h, acts);
      assert !WithinBound(h, acts);
    } else {
      forall acts | Run(h, acts) && OwnedAlone(h, acts) ensures WithinBound(h, acts) {
        RetryBoundHolds(h, acts);
      }
    }
  }

  // ------------------------------------------------------------------ foreign finalizers

  /** A Sidekick held by another controller, with a live pod of its own. */
  ghost predicate HeldWithPod(h: History) {
    && h.world.sidekick.Some? && h.world.pod.Some?
    && (var sk := h.world.sidekick.value; sk.finalizer && sk.foreignFinalizers)
    && (var pod := h.world.pod.value; pod.finalizer && !pod.deleting && pod.uid in h.created)
  }

  /** The Sidekick marked for deletion; its two finalizers keep it. */
  function Going(h: History): History
    requires h.world.sidekick.Some?
  {
    var sk := h.world.sidekick.value;
    h.(world := h.world.(sidekick := Some(sk.(deleting := true, generation := sk.generation + 1))))
  }

  lemma DeleteStep(h: History, n: nat, total: int, small: bool)
    requires Retryable(h) && Ledger(h, n, total) && Untouched(h) && HeldWithPod(h) && !h.world.sidekick.value.deleting
    ensures Enabled(h, DeleteSidekick) && Apply(h, DeleteSidekick) == Going(h)
    ensures Retryable(Going(h)) && Ledger(Going(h), n, total) && Untouched(Going(h)) && HeldWithPod(Going(h))
    ensures Room(h, total, small) ==> Room(Going(h), total, small)
  {
  }

  /** Once it is being deleted, the pod is lost without being counted, and the terminating reconcile
      creates one more. */
  lemma PodWhileGoing(h: History, n: nat, total: int, small: bool) returns (acts: seq<Action>, e: History)
    requires Retryable(h) && Ledger(h, n, total) && Untouched(h) && HeldWithPod(h) && Room(h, total, small)
    requires h.world.sidekick.value.deleting && Wrap32(total) <= BackoffLimit(h.world.sidekick.value.spec)
    ensures Reaches(h, acts, e, small) && |e.created| == |h.created| + 1 && e.uncounted == h.uncounted
  {
    var lose := LoseUntouched(h, n, total, small);
    LostLedger(h, n, total, small);
    var again;
    again, e := CreateRun(Lost(h), n, total, small);
    Append(h, lose, Lost(h), again, e, small);
    acts := lose + again;
  }

  lemma PodAfterDeletion(h: History, n: nat, total: int, small: bool) returns (acts: seq<Action>, e: History)
    requires Retryable(h) && Ledger(h, n, total) && Untouched(h) && HeldWithPod(h) && Room(h, total, small)
    requires !h.world.sidekick.value.deleting && Wrap32(total) <= BackoffLimit(h.world.sidekick.value.spec)
    ensures Reaches(h, acts, e, small) && |e.created| == |h.created| + 1 && e.uncounted == h.uncounted
  {
    DeleteStep(h, n, total, small);
    var rest;
    rest, e := PodWhileGoing(Going(h), n, total, small);
    if small {
      BooksAreSmall(h.world.sidekick.value.status, h.world.pod);
    }
    Prepend(h, DeleteSidekick, rest, e, small);
    acts := [DeleteSidekick] + rest;
  }

  /** As many counted losses as the limit allows, and then one pod more. */
  lemma FillLimit(h: History, small: bool) returns (acts: seq<Action>, e: History)
    requires Initial(h) && Retryable(h) && KeyDeletionInitiator !in h.world.sidekick.value.annotations
    requires small ==> BackoffLimit(h.world.sidekick.value.spec) + 2 <= INT32_MAX
    ensures var limit := BackoffLimit(h.world.sidekick.value.spec);
            && Reaches(h, acts, e, small) && Ledger(e, limit + 1, limit) && Untouched(e) && Room(e, limit, small)
            && |e.created| == limit + 1 && e.uncounted == {} && e.world.candidates == h.world.candidates
    ensures e.world.sidekick.value
            == h.world.sidekick.value.(finalizer := true, status := e.world.sidekick.value.status)
    ensures e.world.pod.value.finalizer && !e.world.pod.value.deleting && e.world.pod.value.uid in e.created
  {
    var limit := BackoffLimit(h.world.sidekick.value.spec);
    InitialLedger(h, small);
    var cycles, m := CountedCycles(h, 0, 0, limit, 0, small);
    var create;
    create, e := CreateRun(m, limit, limit, small);
    Append(h, cycles, m, create, e, small);
    acts := cycles + create;
  }

  /** With another controller's finalizer on the Sidekick, the reconcile that terminates it goes on and
      creates a pod: BackoffLimit + 2 pods, none of them an uncounted deletion, whatever the limit. So
      the extra pod in the retry bound is needed. */
  lemma ForeignFinalizerBreaksBound(h: History) returns (acts: seq<Action>)
    requires Initial(h) && Willing(h) && h.world.sidekick.value.foreignFinalizers
    ensures var limit: int := BackoffLimit(h.world.sidekick.value.spec);
            && Legal(h, acts) && |After(h, acts).created| == limit + 2 && After(h, acts).uncounted == {}
            && (limit + 2 <= INT32_MAX ==> Run(h, acts) && SameHolders(acts) && !WithinBound(h, acts))
  {
    var limit: int := BackoffLimit(h.world.sidekick.value.spec);
    if KeyDeletionInitiator in h.world.sidekick.value.annotations {
      acts := UncountedRetries(h, limit + 2);
    } else {
      var small := limit + 2 <= INT32_MAX;
      var offer, h1 := OfferRun(h, small);
      var rest, e := OnePodMore(h1, small);
      Append(h, offer, h1, rest, e, small);
      acts := offer + rest;
      ReachesLegal(h, acts, e, small);
      if small {
        ReachesRun(h, acts, e);
      }
    }
  }

  lemma OnePodMore(h: History, small: bool) returns (acts: seq<Action>, e: History)
    requires Initial(h) && Retryable(h) && KeyDeletionInitiator !in h.world.sidekick.value.annotations
    requires h.world.sidekick.value.foreignFinalizers
    requires small ==> BackoffLimit(h.world.sidekick.value.spec) + 2 <= INT32_MAX
    ensures Reaches(h, acts, e, small) && e.uncounted == {}
    ensures |e.created| == BackoffLimit(h.world.sidekick.value.spec) + 2
  {
    var limit: int := BackoffLimit(h.world.sidekick.value.spec);
    var fill, m := FillLimit(h, small);
    var more;
    more, e := PodAfterDeletion(m, limit + 1, limit, small);
    Append(h, fill, m, more, e, small);
    acts := fill + more;
  }

  /** The Sidekick, if still there, has the same foreign finalizers. */
  predicate Holders(w: World, w': World) {
    w'.sidekick.Some? ==>
      w.sidekick.Some? && w'.sidekick.value.foreignFinalizers == w.sidekick.value.foreignFinalizers
  }

  lemma FollowKeepsHolders(w: World, sk: Sidekick, leader: Option<Candidate>, uid: Uid)
    requires w.sidekick == Some(sk)
    ensures Holders(w, Follow(w, sk, leader, uid).world)
  {
  }

  lemma AdvanceKeepsHolders(w: World, sk: Sidekick, uid: Uid)
    requires w.sidekick == Some(sk)
    ensures Holders(w, Advance(w, sk, uid).world)
  {
    var sk' := sk.(status := Calculate(sk.spec, sk.status, w.pod));
    FollowKeepsHolders(w.(sidekick := Some(sk')), sk', GetLeader(sk'.spec.leader, w.candidates), uid);
  }

  lemma SidekickKeepsHolders(w: World, uid: Uid)
    ensures Holders(w, ReconcileSidekick(w, uid).world)
  {
    if w.sidekick.Some? {
      var sk := w.sidekick.value;
      var pod := if w.pod.Some? then Some(w.pod.value.(deleting := true)) else None;
      AdvanceKeepsHolders(w.(sidekick := Some(sk.(finalizer := false)), pod := pod), sk.(finalizer := false), uid);
      AdvanceKeepsHolders(w.(sidekick := Some(sk.(finalizer := true))), sk.(finalizer := true), uid);
    }
  }

  lemma StepKeepsHolders(h: History, a: Action)
    requires Enabled(h, a) && !a.ForeignFinalizers?
    ensures Holders(h.world, Apply(h, a).world)
  {
    if a.DoReconcile? {
      SidekickKeepsHolders(h.world, a.uid);
      if h.world.pod.Some? {
        SidekickKeepsHolders(Counted(h).world, a.uid);
      }
    }
  }

  lemma {:induction false} StaysAlone(h: History, acts: seq<Action>)
    requires Run(h, acts) && SameHolders(acts)
    requires h.world.sidekick.Some? ==> !h.world.sidekick.value.foreignFinalizers
    ensures OwnedAlone(h, acts)
    decreases |acts|
  {
    if acts != [] {
      StepKeepsHolders(h, acts[0]);
      StaysAlone(Apply(h, acts[0]), acts[1..]);
    }
  }

  // ------------------------------------------------------------------ limits that sums in range never reach

  /** No reconcile creates a pod any more. */
  predicate Spent(w: World) {
    w.sidekick.None? || (w.sidekick.value.deleting && !w.sidekick.value.finalizer)
  }

  predicate Alive(w: World) {
    w.sidekick.Some? && !w.sidekick.value.deleting
  }

  lemma FollowKeepsMarks(w: World, sk: Sidekick, leader: Option<Candidate>, uid: Uid)
    requires w.sidekick == Some(sk)
    ensures var w' := Follow(w, sk, leader, uid).world;
            && w'.sidekick.Some?
            && w'.sidekick.value.deleting == sk.deleting && w'.sidekick.value.finalizer == sk.finalizer
  {
  }

  lemma AdvanceKeepsMarks(w: World, sk: Sidekick, uid: Uid)
    requires w.sidekick == Some(sk)
    ensures var w' := Advance(w, sk, uid).world;
            && w'.sidekick.Some?
            && w'.sidekick.value.deleting == sk.deleting && w'.sidekick.value.finalizer == sk.finalizer
  {
    var sk' := sk.(status := Calculate(sk.spec, sk.status, w.pod));
    FollowKeepsMarks(w.(sidekick := Some(sk')), sk', GetLeader(sk'.spec.leader, w.candidates), uid);
  }

  /** A reconcile that creates a pod leaves its Sidekick alive, or has just spent it. */
  lemma SidekickCreates(w: World, uid: Uid)
    ensures var o := ReconcileSidekick(w, uid);
            && (o.event.Created? ==> !Spent(w) && (Alive(o.world) || Spent(o.world)))
            && (Spent(w) ==> Spent(o.world))
  {
    if w.sidekick.Some? {
      var sk := w.sidekick.value;
      var pod := if w.pod.Some? then Some(w.pod.value.(deleting := true)) else None;
      AdvanceKeepsMarks(w.(sidekick := Some(sk.(finalizer := false)), pod := pod), sk.(finalizer := false), uid);
      AdvanceKeepsMarks(w.(sidekick := Some(sk.(finalizer := true))), sk.(finalizer := true), uid);
    }
  }

  lemma StepCreates(h: History, a: Action)
    requires Enabled(h, a)
    ensures var h' := Apply(h, a);
            && h.uncounted <= h'.uncounted && h.created <= h'.created && |h'.created| <= |h.created| + 1
            && (h'.created != h.created ==> !Spent(h.world) && (Alive(h'.world) || Spent(h'.world)))
            && (Spent(h.world) ==> Spent(h'.world))
  {
    if a.DoReconcile? {
      SidekickCreates(h.world, a.uid);
      if h.world.pod.Some? {
        SidekickCreates(Counted(h).world, a.uid);
      }
    }
  }

  /** The pods that failures of a small total, the present pod and the termination account for. */
  ghost predicate Capped(h: History) {
    |h.created| <= INT32_MAX - 1 + |h.uncounted| + (if Spent(h.world) then 1 else 0)
  }

  lemma AliveIsCapped(h: History)
    requires Alive(h.world) && Books(h, false) && Small(h)
    ensures Capped(h)
  {
    var marked := TrueKeys(h.world.sidekick.value.status.failures);
    var present := if h.world.pod.Some? then {h.world.pod.value.uid} else {};
    CurrentRestartsNonNegative(h.world.sidekick.value.status, h.world.pod);
    forall u | u in h.created ensures u in marked + h.uncounted + present {
      assert Accounted(h, u) || u in present;
    }
    SubsetSize(h.created, marked + h.uncounted + present);
    UnionSize(marked + h.uncounted, present);
    UnionSize(marked, h.uncounted);
  }

  lemma CurrentRestartsNonNegative(status: Status, pod: Option<Pod>)
    requires Fits(status, pod, 2)
    ensures SumMap(CurrentRestarts(status, pod)) >= 0
  {
    SumMapNonNegative(CurrentRestarts(status, pod));
  }

  lemma StepCapped(h: History, a: Action)
    requires Enabled(h, a) && Capped(h) && Books(Apply(h, a), false) && Small(Apply(h, a))
    ensures Capped(Apply(h, a))
  {
    var h' := Apply(h, a);
    StepCreates(h, a);
    SubsetSize(h.uncounted, h'.uncounted);
    if Alive(h'.world) {
      AliveIsCapped(h');
    }
  }

  lemma {:induction false} RunCapped(h: History, acts: seq<Action>, limit: int)
    requires Run(h, acts) && Inv(h, limit, false) && Capped(h)
    ensures Capped(End(h, acts))
    decreases |acts|
  {
    if acts != [] {
      StepKeeps(h, acts[0], limit, false);
      StepCapped(h, acts[0]);
      RunCapped(Apply(h, acts[0]), acts[1..], limit);
    }
  }

  /** A limit that the failures of a total in range never reach: then the bound holds even if another
      controller holds the Sidekick. */
  lemma LargeLimitHolds(h: History, acts: seq<Action>)
    requires Initial(h) && Run(h, acts) && h.world.sidekick.value.spec.policy != Always
    requires KeyDeletionInitiator !in h.world.sidekick.value.annotations
    requires BackoffLimit(h.world.sidekick.value.spec) > INT32_MAX - 2
    ensures WithinBound(h, acts)
  {
    RunCapped(h, acts, BackoffLimit(h.world.sidekick.value.spec));
  }

  /** What a user can check beforehand: while no other controller takes or drops a finalizer, the retry
      bound holds on all runs if and only if the Sidekick does not carry the deletion-initiator key, and no
      foreign finalizer either unless its limit is one that totals in range never reach. */
  lemma RetryBoundIffOwned(h: History)
    requires Initial(h) && Willing(h)
    ensures (forall acts | Run(h, acts) && SameHolders(acts) :: WithinBound(h, acts))
            <==> (&& KeyDeletionInitiator !in h.world.sidekick.value.annotations
                  && (h.world.sidekick.value.foreignFinalizers ==>
                        BackoffLimit(h.world.sidekick.value.spec) > INT32_MAX - 2))
  {
    var sk := h.world.sidekick.value;
    if KeyDeletionInitiator in sk.annotations {
      var acts := UncountedRetries(h, Allowance(BackoffLimit(sk.spec)) + 1);
      assert !WithinBound(h, acts);
    } else if sk.foreignFinalizers && BackoffLimit(sk.spec) <= INT32_MAX - 2 {
      var acts := ForeignFinalizerBreaksBound(h);
    } else {
      forall acts | Run(h, acts) && SameHolders(acts) ensures WithinBound(h, acts) {
        if sk.foreignFinalizers {
          LargeLimitHolds(h, acts);
        } else {
          StaysAlone(h, acts);
          RetryBoundHolds(h, acts);
        }
      }
    }
  }
}
