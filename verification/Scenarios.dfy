/** Building concrete runs, step by step: creating pods, losing them, and what the books say then. */
module Scenarios {
  import opened Kube
  import opened Backoff
  import opened Phase
  import opened Leader
  import opened PodBuilder
  import opened Reconcile
  import opened Runs

  /** acts leads from h to e, without any change of foreign finalizers; if `small`, through states whose
      sums fit. */
  ghost predicate Reaches(h: History, acts: seq<Action>, e: History, small: bool)
    decreases |acts|
  {
    && (small ==> Small(h))
    && (if acts == [] then h == e
        else !acts[0].ForeignFinalizers? && Enabled(h, acts[0]) && Reaches(Apply(h, acts[0]), acts[1..], e, small))
  }

  /** No other controller takes or drops its finalizer. */
  predicate SameHolders(acts: seq<Action>) {
    forall a | a in acts :: !a.ForeignFinalizers?
  }

  lemma {:induction false} ReachesLegal(h: History, acts: seq<Action>, e: History, small: bool)
    requires Reaches(h, acts, e, small)
    ensures Legal(h, acts) && After(h, acts) == e && SameHolders(acts)
    decreases |acts|
  {
    if acts != [] {
      ReachesLegal(Apply(h, acts[0]), acts[1..], e, small);
    }
  }

  lemma {:induction false} ReachesRun(h: History, acts: seq<Action>, e: History)
    requires Reaches(h, acts, e, true)
    ensures Run(h, acts) && End(h, acts) == e && SameHolders(acts)
    decreases |acts|
  {
    if acts != [] {
      ReachesRun(Apply(h, acts[0]), acts[1..], e);
    }
  }

  lemma Prepend(h: History, a: Action, acts: seq<Action>, e: History, small: bool)
    requires (small ==> Small(h)) && !a.ForeignFinalizers? && Enabled(h, a) && Reaches(Apply(h, a), acts, e, small)
    ensures Reaches(h, [a] + acts, e, small)
  {
    assert ([a] + acts)[1..] == acts;
  }

  lemma {:induction false} Append(h: History, acts: seq<Action>, m: History, more: seq<Action>, e: History, small: bool)
    requires Reaches(h, acts, m, small) && Reaches(m, more, e, small)
    ensures Reaches(h, acts + more, e, small)
    decreases |acts|
  {
    if acts == [] {
      assert acts + more == more;
    } else {
      var next, all := Apply(h, acts[0]), acts + more;
      assert all[0] == acts[0] && all[1..] == acts[1..] + more;
      Append(next, acts[1..], m, more, e, small);
      assert Reaches(next, all[1..], e, small);
    }
  }

  // ------------------------------------------------------------------ the books

  function FreshUid(n: nat): (u: Uid)
    ensures |u| == n + 1
  {
    seq(n + 1, _ => 'u')
  }

  /** The policy is not Always and the limit not negative: retries are possible at all. */
  ghost predicate Willing(h: History) {
    && h.world.sidekick.Some?
    && h.world.sidekick.value.spec.policy != Always && BackoffLimit(h.world.sidekick.value.spec) >= 0
  }

  /** And the candidates offer a leader for which the pod can be built. */
  ghost predicate Retryable(h: History) {
    && Willing(h)
    && var spec := h.world.sidekick.value.spec;
       && GetLeader(spec.leader, h.world.candidates).Some?
       && BuildSpec(spec, GetLeader(spec.leader, h.world.candidates).value).Ok?
  }

  /** A leader that fits: of the right name, with all the mounts that the Sidekick names. */
  function FittingLeader(spec: SidekickSpec): Candidate {
    var mounts := MountsOf(spec.containers) + MountsOf(spec.initContainers);
    Candidate(if spec.leader.name != "" then spec.leader.name else "leader", true, PodRunning, map[],
              PodSpec("node", [], [Container("main", [], mounts, "")], []))
  }

  lemma {:induction false} MountsAreListed(cs: seq<Container>, i: nat, m: VolumeMount)
    requires i < |cs| && m in cs[i].mounts
    ensures m in MountsOf(cs)
  {
    if i > 0 {
      MountsAreListed(cs[1..], i - 1, m);
    }
  }

  lemma FittingLeaderResolves(spec: SidekickSpec, cs: seq<Container>)
    requires cs == spec.containers || cs == spec.initContainers
    ensures AllResolvable(FittingLeader(spec), cs)
  {
    var leader := FittingLeader(spec);
    var main := leader.spec.containers;
    assert main[1..] == [] && MountsOf(main) == main[0].mounts + [];
    forall i, m | 0 <= i < |cs| && m in cs[i].mounts ensures Resolvable(leader, m) {
      MountsAreListed(cs, i, m);
      assert m in LeaderMounts(leader);
    }
  }

  /** For every spec there is a list of candidates that offers one. */
  lemma FittingLeaderServes(spec: SidekickSpec)
    ensures GetLeader(spec.leader, [FittingLeader(spec)]) == Some(FittingLeader(spec))
    ensures BuildSpec(spec, FittingLeader(spec)).Ok?
  {
    var leader := FittingLeader(spec);
    assert [leader][..0] == [];
    assert RunningOnly([leader]) == [leader];
    FittingLeaderResolves(spec, spec.containers);
    FittingLeaderResolves(spec, spec.initContainers);
    BuildMeaning(spec, leader);
  }

  /** The books show this total, mention created pods only, and every uid used so far is at most n long. */
  ghost predicate Ledger(h: History, n: nat, total: int) {
    && h.world.sidekick.Some? && h.world.sidekick.value.status.phase != SkSucceeded
    && (var st := h.world.sidekick.value.status;
        && ExactTotal(st.failures, st.restarts) == total
        && st.failures.Keys <= h.created && st.restarts.Keys <= h.created)
    && forall u | u in h.created :: |u| <= n
  }

  /** With `small`, the total has room in an int32. */
  ghost predicate Room(h: History, total: int, small: bool) {
    small ==>
      && h.world.sidekick.Some? && total + 2 <= INT32_MAX
      && forall u | u in h.world.sidekick.value.status.restarts :: 0 <= h.world.sidekick.value.status.restarts[u]
  }

  lemma IdleIsSmall(h: History, n: nat, total: int, small: bool)
    requires Ledger(h, n, total) && Room(h, total, small) && h.world.pod.None?
    ensures small ==> Small(h)
  {
  }

  /** A pod that has not restarted and is not on the books. */
  ghost predicate Untouched(h: History) {
    && h.world.sidekick.Some? && h.world.pod.Some?
    && ExactRestarts(h.world.pod.value) == 0
    && h.world.pod.value.uid !in h.world.sidekick.value.status.failures
    && h.world.pod.value.uid !in h.world.sidekick.value.status.restarts
  }

  lemma BooksAreSmall(status: Status, pod: Option<Pod>)
    requires forall u | u in status.restarts :: 0 <= status.restarts[u]
    requires ExactTotal(status.failures, status.restarts) + 2 <= INT32_MAX
    requires pod.Some? ==> ExactRestarts(pod.value) == 0
    requires pod.Some? && pod.value.uid in status.restarts ==> status.restarts[pod.value.uid] == 0
    ensures Fits(status, pod, 2)
  {
    if pod.Some? {
      SumMapPut(status.restarts, pod.value.uid, RestartCount(pod.value));
    }
  }

  // ------------------------------------------------------------------ creating a pod

  /** A Sidekick without a pod, not over its limit and with a usable leader, is Degraded, and the
      reconcile ends by creating a pod. */
  lemma IdleAdvance(w: World, sk: Sidekick, leader: Candidate, uid: Uid)
    requires w.sidekick == Some(sk) && w.pod.None? && sk.status.phase != SkSucceeded
    requires sk.spec.policy != Always && !OverLimit(sk.spec, sk.status)
    requires GetLeader(sk.spec.leader, w.candidates) == Some(leader) && BuildSpec(sk.spec, leader).Ok?
    ensures var sk' := sk.(status := sk.status.(phase := SkDegraded));
            Advance(w, sk, uid) == CreateBuilt(w.(sidekick := Some(sk')), sk', leader, BuildSpec(sk.spec, leader), uid)
  {
    assert Calculate(sk.spec, sk.status, None) == sk.status.(phase := SkDegraded);
  }

  /** h' is h with one pod more: new, pending, finalizer-protected, annotated like the Sidekick, and
      matching the leader that the status now names. */
  ghost predicate OneMorePod(h: History, h': History, uid: Uid)
    requires h.world.sidekick.Some? && GetLeader(h.world.sidekick.value.spec.leader, h.world.candidates).Some?
  {
    var sk := h.world.sidekick.value;
    var leader := GetLeader(sk.spec.leader, h.world.candidates).value;
    && h'.created == h.created + {uid} && h'.uncounted == h.uncounted
    && h'.world.candidates == h.world.candidates
    && h'.world.pod.Some?
    && (var pod := h'.world.pod.value;
        && pod.uid == uid && pod.finalizer && !pod.deleting && pod.phase == PodPending && ExactRestarts(pod) == 0
        && |pod.spec.containers| == |sk.spec.containers|
        && (KeyDeletionInitiator in pod.annotations <==> KeyDeletionInitiator in sk.annotations))
    && h'.world.sidekick.Some?
    && var sk' := h'.world.sidekick.value;
       && sk' == sk.(finalizer := !sk.deleting, status := sk'.status)
       && sk'.status.failures == sk.status.failures && sk'.status.restarts == sk.status.restarts
       && sk'.status.phase == SkDegraded
       && sk'.status.leaderName == leader.name && !PodNeedsRecreate(sk', leader, h'.world.pod.value)
  }

  /** With the total within the limit, one reconcile creates a pod; so does the one that terminates a
      Sidekick held by another controller. */
  lemma CreateStep(h: History, n: nat, total: int)
    requires Retryable(h) && Ledger(h, n, total) && h.world.pod.None?
    requires Wrap32(total) <= BackoffLimit(h.world.sidekick.value.spec)
    requires h.world.sidekick.value.deleting
             ==> h.world.sidekick.value.finalizer && h.world.sidekick.value.foreignFinalizers
    ensures Enabled(h, DoReconcile(FreshUid(n)))
    ensures OneMorePod(h, Apply(h, DoReconcile(FreshUid(n))), FreshUid(n))
  {
    var sk := h.world.sidekick.value;
    var leader := GetLeader(sk.spec.leader, h.world.candidates).value;
    var sk' := sk.(finalizer := !sk.deleting);
    IdleAdvance(h.world.(sidekick := Some(sk')), sk', leader, FreshUid(n));
    BuildMeaning(sk.spec, leader);
    assert HashOf(sk) == HashOf(sk');
    assert FreshUid(n) !in h.created;
  }

  lemma OneMoreLedger(h: History, h': History, n: nat, total: int, small: bool)
    requires Ledger(h, n, total) && Retryable(h) && h.world.pod.None? && OneMorePod(h, h', FreshUid(n))
    ensures Ledger(h', n + 1, total) && Untouched(h')
    ensures forall t | Room(h, t, small) :: Room(h', t, small)
  {
    assert FreshUid(n) !in h.created;
  }

  /** The run of one reconcile that does it, and the books afterwards. */
  lemma CreateRun(h: History, n: nat, total: int, small: bool) returns (acts: seq<Action>, e: History)
    requires Retryable(h) && Ledger(h, n, total) && h.world.pod.None? && Room(h, total, small)
    requires Wrap32(total) <= BackoffLimit(h.world.sidekick.value.spec)
    requires h.world.sidekick.value.deleting
             ==> h.world.sidekick.value.finalizer && h.world.sidekick.value.foreignFinalizers
    ensures Reaches(h, acts, e, small) && OneMorePod(h, e, FreshUid(n)) && |e.created| == |h.created| + 1
    ensures Ledger(e, n + 1, total) && Untouched(e) && forall t | Room(h, t, small) :: Room(e, t, small)
    ensures acts == [DoReconcile(FreshUid(n))]
  {
    CreateStep(h, n, total);
    var create := DoReconcile(FreshUid(n));
    e := Apply(h, create);
    OneMoreLedger(h, e, n, total, small);
    IdleIsSmall(h, n, total, small);
    if small {
      BooksAreSmall(e.world.sidekick.value.status, e.world.pod);
    }
    Prepend(h, create, [], e, small);
    acts := [create] + [];
    assert acts == [create];
    assert FreshUid(n) !in h.created;
  }

  // ------------------------------------------------------------------ losing a pod

  /** An external deletion of the pod will be counted. */
  predicate Counts(h: History) {
    && h.world.pod.Some? && h.world.sidekick.Some?
    && KeyDeletionInitiator !in h.world.pod.value.annotations && !h.world.sidekick.value.deleting
  }

  /** The state once the pod is gone, its loss counted where it counts. */
  ghost function Lost(h: History): History
    requires h.world.pod.Some?
  {
    Counted(h).(world := Counted(h).world.(pod := None))
  }

  /** The states on the way: the pod marked, then without its finalizer. */
  ghost function PodDeleting(h: History): History
    requires h.world.pod.Some?
  {
    h.(world := h.world.(pod := Some(h.world.pod.value.(deleting := true))))
  }

  ghost function PodReleased(h: History): History
    requires h.world.pod.Some?
  {
    Counted(h).(world := Counted(h).world.(pod := Some(h.world.pod.value.(deleting := true, finalizer := false))))
  }

  lemma LoseSteps(h: History, uid: Uid)
    requires h.world.pod.Some? && h.world.pod.value.finalizer && !h.world.pod.value.deleting && uid !in h.created
    ensures Enabled(h, DeletePodExternally) && Apply(h, DeletePodExternally) == PodDeleting(h)
    ensures Enabled(PodDeleting(h), DoReconcile(uid)) && Apply(PodDeleting(h), DoReconcile(uid)) == PodReleased(h)
    ensures Enabled(PodReleased(h), PodVanishes) && Apply(PodReleased(h), PodVanishes) == Lost(h)
  {
  }

  /** External deletion, removal of the finalizer, disappearance. */
  lemma LosePod(h: History, uid: Uid, small: bool) returns (acts: seq<Action>)
    requires h.world.pod.Some? && h.world.pod.value.finalizer && !h.world.pod.value.deleting && uid !in h.created
    requires small ==> Small(h) && Small(PodDeleting(h)) && Small(PodReleased(h)) && Small(Lost(h))
    ensures Reaches(h, acts, Lost(h), small)
  {
    LoseSteps(h, uid);
    var last: seq<Action> := [];
    assert Reaches(Lost(h), last, Lost(h), small);
    Prepend(PodReleased(h), PodVanishes, last, Lost(h), small);
    Prepend(PodDeleting(h), DoReconcile(uid), [PodVanishes] + last, Lost(h), small);
    Prepend(h, DeletePodExternally, [DoReconcile(uid)] + ([PodVanishes] + last), Lost(h), small);
    acts := [DeletePodExternally] + ([DoReconcile(uid)] + ([PodVanishes] + last));
  }

  /** What the books show after the loss of a pod that was not on them as failed. */
  lemma LostLedger(h: History, n: nat, total: int, small: bool)
    requires Ledger(h, n, total) && h.world.pod.Some? && h.world.pod.value.uid in h.created
    requires h.world.pod.value.uid !in h.world.sidekick.value.status.failures
    ensures Ledger(Lost(h), n, if Counts(h) then total + 1 else total)
    ensures forall t | Room(h, t, small) :: Room(Lost(h), t, small)
  {
    MarkOne(h.world.sidekick.value.status.failures, h.world.pod.value.uid);
  }

  lemma LosingIsSmall(h: History, n: nat, total: int)
    requires Ledger(h, n, total) && Untouched(h) && Room(h, total, true)
    requires Counts(h) ==> Room(h, total + 1, true)
    ensures Small(h) && Small(PodDeleting(h)) && Small(PodReleased(h)) && Small(Lost(h))
  {
    var st := h.world.sidekick.value.status;
    BooksAreSmall(st, h.world.pod);
    BooksAreSmall(st, PodDeleting(h).world.pod);
    var st' := Counted(h).world.sidekick.value.status;
    MarkOne(st.failures, h.world.pod.value.uid);
    BooksAreSmall(st', PodReleased(h).world.pod);
    BooksAreSmall(st', None);
  }

  lemma LoseUntouched(h: History, n: nat, total: int, small: bool) returns (acts: seq<Action>)
    requires Ledger(h, n, total) && Untouched(h) && Room(h, total, small) && h.world.pod.value.uid in h.created
    requires Counts(h) ==> Room(h, total + 1, small)
    requires h.world.pod.value.finalizer && !h.world.pod.value.deleting
    ensures Reaches(h, acts, Lost(h), small)
  {
    if small {
      LosingIsSmall(h, n, total);
    }
    assert FreshUid(n) !in h.created;
    acts := LosePod(h, FreshUid(n), small);
  }

  // ------------------------------------------------------------------ cycles

  /** One pod created and lost. */
  lemma Cycle(h: History, n: nat, total: int, small: bool) returns (acts: seq<Action>, e: History)
    requires Retryable(h) && Ledger(h, n, total) && h.world.pod.None? && Room(h, total, small)
    requires !h.world.sidekick.value.deleting && Wrap32(total) <= BackoffLimit(h.world.sidekick.value.spec)
    requires KeyDeletionInitiator !in h.world.sidekick.value.annotations ==> Room(h, total + 1, small)
    ensures Reaches(h, acts, e, small)
    ensures ReadyAgain(h, e) && e.created == h.created + {FreshUid(n)}
    ensures var total' := if KeyDeletionInitiator !in h.world.sidekick.value.annotations then total + 1 else total;
            Ledger(e, n + 1, total') && forall t | Room(h, t, small) :: Room(e, t, small)
  {
    var create, h1 := CreateRun(h, n, total, small);
    assert Counts(h1) <==> KeyDeletionInitiator !in h.world.sidekick.value.annotations;
    var lose := LoseUntouched(h1, n + 1, total, small);
    e := Lost(h1);
    LostLedger(h1, n + 1, total, small);
    Append(h, create, h1, lose, e, small);
    acts := create + lose;
  }

  /** Still without a pod, ready for the next one. */
  ghost predicate ReadyAgain(h: History, e: History) {
    && h.world.sidekick.Some? && e.world.sidekick.Some? && e.world.pod.None?
    && e.world.candidates == h.world.candidates && e.uncounted == h.uncounted
    && e.world.sidekick.value == h.world.sidekick.value.(finalizer := true, status := e.world.sidekick.value.status)
  }

  /** None of k totals in a row exceeds the limit, as the 32-bit comparison sees them: all are read
      exactly, or all one lap of 2^32 too low. */
  predicate AllUnder(total: int, k: nat, limit: Int32, lap: int) {
    (lap == 0 || lap == 0x1_0000_0000) && -0x8000_0000 <= total - lap && total + k - 1 - lap <= limit
  }

  lemma UnderReads(total: int, limit: Int32, lap: int)
    requires AllUnder(total, 1, limit, lap)
    ensures Wrap32(total) <= limit
  {
    assert Wrap32(total) == total - lap;
  }

  lemma CountedCycle(h: History, n: nat, total: int, room: int, lap: int, small: bool)
      returns (acts: seq<Action>, e: History)
    requires Retryable(h) && Ledger(h, n, total) && h.world.pod.None? && !h.world.sidekick.value.deleting
    requires KeyDeletionInitiator !in h.world.sidekick.value.annotations
    requires total + 1 <= room && Room(h, room, small)
    requires AllUnder(total, 1, BackoffLimit(h.world.sidekick.value.spec), lap)
    ensures Reaches(h, acts, e, small) && Ledger(e, n + 1, total + 1) && Room(e, room, small)
    ensures |e.created| == |h.created| + 1 && ReadyAgain(h, e) && Retryable(e)
  {
    UnderReads(total, BackoffLimit(h.world.sidekick.value.spec), lap);
    acts, e := Cycle(h, n, total, small);
    assert FreshUid(n) !in h.created;
  }

  /** k pods created and lost, each loss counted. */
  lemma {:induction false} CountedCycles(h: History, n: nat, total: int, k: nat, lap: int, small: bool)
      returns (acts: seq<Action>, e: History)
    requires Retryable(h) && Ledger(h, n, total) && h.world.pod.None? && !h.world.sidekick.value.deleting
    requires KeyDeletionInitiator !in h.world.sidekick.value.annotations
    requires Room(h, total + k, small) && AllUnder(total, k, BackoffLimit(h.world.sidekick.value.spec), lap)
    ensures Reaches(h, acts, e, small) && Ledger(e, n + k, total + k) && Room(e, total + k, small)
    ensures |e.created| == |h.created| + k && (if k > 0 then ReadyAgain(h, e) else e == h)
    decreases k
  {
    if k == 0 {
      IdleIsSmall(h, n, total, small);
      acts, e := [], h;
    } else {
      var once, m := CountedCycle(h, n, total, total + k, lap, small);
      var rest;
      rest, e := CountedCycles(m, n + 1, total + 1, k - 1, lap, small);
      Append(h, once, m, rest, e, small);
      acts := once + rest;
    }
  }

  /** k pods created and lost, no loss counted, because pods inherit the key from the Sidekick. */
  lemma {:induction false} UncountedCycles(h: History, n: nat, k: nat, small: bool)
      returns (acts: seq<Action>, e: History)
    requires Retryable(h) && Ledger(h, n, 0) && h.world.pod.None? && !h.world.sidekick.value.deleting
    requires KeyDeletionInitiator in h.world.sidekick.value.annotations && Room(h, 0, small)
    ensures Reaches(h, acts, e, small)
    ensures |e.created| == |h.created| + k && (if k > 0 then ReadyAgain(h, e) else e == h)
    decreases k
  {
    if k == 0 {
      IdleIsSmall(h, n, 0, small);
      acts, e := [], h;
    } else {
      var once, m := Cycle(h, n, 0, small);
      assert FreshUid(n) !in h.created;
      var rest;
      rest, e := UncountedCycles(m, n + 1, k - 1, small);
      Append(h, once, m, rest, e, small);
      acts := once + rest;
    }
  }
}
