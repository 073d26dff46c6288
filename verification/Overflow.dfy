/**
 What the 32-bit totals cost over runs. Retry bound and absorbing Failed phase are proved for runs whose
 sums fit; here are runs, legal but for that, on which both fail, and the one limit that never fails.
 */
module Overflow {
  import opened Kube
  import opened Backoff
  import opened Phase
  import opened Leader
  import opened PodBuilder
  import opened Reconcile
  import opened Runs
  import opened RetryBound
  import opened Scenarios
  import opened RetryLimits

  /** The pod with its first container, waiting to be restarted, at the largest restart count. */
  function Crashing(pod: Pod): Pod {
    pod.(phase := PodRunning, statuses := [ContainerStatus(INT32_MAX, false)])
  }

  lemma CrashingCounts(pod: Pod)
    requires ExactRestarts(pod) == 0
    ensures ExactRestarts(Crashing(pod)) == INT32_MAX == RestartCount(Crashing(pod))
  {
    var s := Crashing(pod).statuses;
    assert s[..0] == [];
    assert SumStatuses(s) == SumStatuses(s[..0]) + INT32_MAX;
  }

  lemma OneEntrySum(u: Uid, v: Int32)
    ensures SumMap(map[u := v]) == v
  {
    var none: map<Uid, Int32> := map[];
    assert none[u := v] == map[u := v];
    SumMapPut(none, u, v);
  }

  /** Nothing is recorded but restarts of this pod. */
  predicate OnlyPod(status: Status, uid: Uid) {
    status.failures == map[] && status.restarts.Keys <= {uid} && status.phase != SkSucceeded
  }

  /** A look at the crashing pod brings the total to the largest int32, short of failure only if the limit
      is as large. */
  lemma CrashTotal(spec: SidekickSpec, status: Status, pod: Pod)
    requires ExactRestarts(pod) == 0 && !pod.deleting && OnlyPod(status, pod.uid) && spec.policy != Always
    ensures var st := Calculate(spec, status, Some(Crashing(pod)));
            && st == status.(restarts := map[pod.uid := INT32_MAX], phase := st.phase)
            && ExactTotal(st.failures, st.restarts) == INT32_MAX
            && st.phase == (if BackoffLimit(spec) < INT32_MAX then SkFailed else SkDegraded)
  {
    CrashingCounts(pod);
    assert status.restarts[pod.uid := INT32_MAX] == map[pod.uid := INT32_MAX];
    OneEntrySum(pod.uid, INT32_MAX);
    assert TrueKeys(status.failures) == {};
    assert ContainerStatus(INT32_MAX, false) in Crashing(pod).statuses;
  }

  /** A look at the same pod once it has failed adds one, and the total wraps around: not over any limit. */
  lemma FailedCrashTotal(spec: SidekickSpec, status: Status, pod: Pod)
    requires ExactRestarts(pod) == INT32_MAX && !pod.deleting && pod.phase == PodFailed
    requires OnlyPod(status, pod.uid) && spec.policy != Always && BackoffLimit(spec) >= 0
    ensures Calculate(spec, status, Some(pod)).phase == SkDegraded
  {
    var marked := status.failures[pod.uid := true];
    var restarts := status.restarts[pod.uid := INT32_MAX];
    assert restarts == map[pod.uid := INT32_MAX];
    OneEntrySum(pod.uid, INT32_MAX);
    assert TrueKeys(marked) == {pod.uid};
    assert ExactTotal(marked, restarts) == INT32_MAX + 1;
    assert Total(marked, restarts) == -0x8000_0000;
  }

  // ------------------------------------------------------------------ one reconcile

  /** Only the status of the Sidekick has changed, and not its phase. */
  predicate KeepsPhase(sk: Sidekick, w: World) {
    && w.sidekick.Some? && w.sidekick.value == sk.(status := w.sidekick.value.status)
    && w.sidekick.value.status.phase == sk.status.phase
  }

  lemma SyncKeepsPhase(w: World, sk: Sidekick, leader: Candidate, pod: Pod)
    ensures KeepsPhase(sk, SyncExistingPod(w, sk, leader, pod).world)
  {
  }

  lemma CreateKeepsPhase(w: World, sk: Sidekick, leader: Candidate, built: Result<PodSpec>, uid: Uid)
    requires w.sidekick == Some(sk)
    ensures KeepsPhase(sk, CreateBuilt(w, sk, leader, built, uid).world)
  {
  }

  lemma FollowKeepsPhase(w: World, sk: Sidekick, leader: Option<Candidate>, uid: Uid)
    requires w.sidekick == Some(sk)
    ensures KeepsPhase(sk, Follow(w, sk, leader, uid).world)
  {
    if leader.Some? {
      if w.pod.Some? {
        SyncKeepsPhase(w, sk, leader.value, w.pod.value);
      } else {
        CreateKeepsPhase(w, sk, leader.value, BuildSpec(sk.spec, leader.value), uid);
      }
    }
  }

  lemma ProceedEndsWith(w: World, sk: Sidekick, status: Status, uid: Uid)
    ensures KeepsPhase(sk.(status := status), Proceed(w, sk, status, uid).world)
  {
    var sk' := sk.(status := status);
    FollowKeepsPhase(w.(sidekick := Some(sk')), sk', GetLeader(sk'.spec.leader, w.candidates), uid);
  }

  /** A reconcile of a live Sidekick with a live pod ends with the phase it calculates. */
  lemma PhaseAfterReconcile(w: World, uid: Uid)
    requires w.sidekick.Some? && !w.sidekick.value.deleting && w.pod.Some? && !w.pod.value.deleting
    ensures var sk, o := w.sidekick.value, ReconcileWorld(w, uid);
            && o.world.sidekick.Some?
            && o.world.sidekick.value.status.phase == Calculate(sk.spec, sk.status, w.pod).phase
  {
    var sk := w.sidekick.value.(finalizer := true);
    ProceedEndsWith(w.(sidekick := Some(sk)), sk, Calculate(sk.spec, sk.status, w.pod), uid);
  }

  /** A Sidekick that fails takes its running pod along, and the reconcile stops. */
  lemma FailingStops(w: World, uid: Uid)
    requires w.sidekick.Some? && !w.sidekick.value.deleting
    requires w.pod.Some? && !w.pod.value.deleting && w.pod.value.phase == PodRunning
    requires Calculate(w.sidekick.value.spec, w.sidekick.value.status, w.pod).phase == SkFailed
    ensures var sk := w.sidekick.value.(finalizer := true,
                                        status := Calculate(w.sidekick.value.spec, w.sidekick.value.status, w.pod));
            ReconcileWorld(w, uid)
            == Outcome(w.(sidekick := Some(sk), pod := Some(w.pod.value.(phase := PodFailed))), Quiet)
  {
  }

  /** A matching pod of a Sidekick in no final phase is kept. */
  lemma QuietReconcile(w: World, leader: Candidate, uid: Uid)
    requires w.sidekick.Some? && !w.sidekick.value.deleting && w.pod.Some? && !w.pod.value.deleting
    requires GetLeader(w.sidekick.value.spec.leader, w.candidates) == Some(leader)
    requires w.sidekick.value.status.leaderName == leader.name
    requires !PodNeedsRecreate(w.sidekick.value, leader, w.pod.value)
    requires var p := Calculate(w.sidekick.value.spec, w.sidekick.value.status, w.pod).phase;
             p != SkFailed && p != SkSucceeded
    ensures var sk, o := w.sidekick.value, ReconcileWorld(w, uid);
            var status := Calculate(sk.spec, sk.status, w.pod);
            var seen := status.(podPhase := w.pod.value.phase, observedGeneration := sk.generation);
            o == Outcome(w.(sidekick := Some(sk.(finalizer := true, status := seen))), Quiet)
  {
    var sk := w.sidekick.value;
    var sk' := sk.(finalizer := true, status := Calculate(sk.spec, sk.status, w.pod));
    assert HashOf(sk') == HashOf(sk);
    var w' := w.(sidekick := Some(sk'));
    assert ReconcileWorld(w, uid) == SyncExistingPod(w', sk', leader, w.pod.value);
  }

  // ------------------------------------------------------------------ the Failed phase

  /** A first pod with a container, matching its leader, and nothing recorded. */
  ghost predicate Young(h: History) {
    && Retryable(h) && h.world.pod.Some? && !h.world.sidekick.value.deleting
    && h.created == {FreshUid(0)} && h.world.pod.value.uid == FreshUid(0)
    && h.world.pod.value.finalizer && !h.world.pod.value.deleting && ExactRestarts(h.world.pod.value) == 0
    && h.world.pod.value.phase == PodPending && |h.world.pod.value.spec.containers| > 0
    && OnlyPod(h.world.sidekick.value.status, FreshUid(0))
    && var leader := GetLeader(h.world.sidekick.value.spec.leader, h.world.candidates).value;
       && h.world.sidekick.value.status.leaderName == leader.name
       && !PodNeedsRecreate(h.world.sidekick.value, leader, h.world.pod.value)
  }

  lemma FirstPodIsYoung(h: History, h': History)
    requires Initial(h) && Retryable(h) && OneMorePod(h, h', FreshUid(0))
    requires h.world.sidekick.value.spec.containers != []
    ensures Young(h')
  {
  }

  /** The container crashes. */
  function Crashed(h: History): History
    requires h.world.pod.Some?
  {
    h.(world := h.world.(pod := Some(Crashing(h.world.pod.value))))
  }

  lemma CrashStep(h: History)
    requires Young(h)
    ensures Enabled(h, PodMovesOn(Crashing(h.world.pod.value)))
    ensures Apply(h, PodMovesOn(Crashing(h.world.pod.value))) == Crashed(h)
  {
    CrashingCounts(h.world.pod.value);
  }

  /** The restarts are on the books; the pod is still there, failed if the Sidekick has failed. */
  ghost predicate Recorded(h: History, e: History)
    requires h.world.sidekick.Some? && h.world.pod.Some?
  {
    var sk, pod := h.world.sidekick.value, h.world.pod.value;
    var failed := BackoffLimit(sk.spec) < INT32_MAX;
    && e.created == h.created && e.uncounted == h.uncounted && e.world.candidates == h.world.candidates
    && e.world.sidekick.Some?
    && e.world.sidekick.value == sk.(finalizer := true, status := e.world.sidekick.value.status)
    && (var st := e.world.sidekick.value.status;
        && OnlyPod(st, pod.uid) && ExactTotal(st.failures, st.restarts) == INT32_MAX
        && st.phase == (if failed then SkFailed else SkDegraded))
    && e.world.pod == Some(if failed then Crashing(pod).(phase := PodFailed) else Crashing(pod))
  }

  lemma RecordStep(h: History, uid: Uid)
    requires Young(h) && uid !in h.created
    ensures Recorded(h, Apply(Crashed(h), DoReconcile(uid)))
  {
    var sk, w := h.world.sidekick.value, Crashed(h).world;
    CrashTotal(sk.spec, sk.status, h.world.pod.value);
    if BackoffLimit(sk.spec) < INT32_MAX {
      FailingStops(w, uid);
    } else {
      QuietReconcile(w, GetLeader(sk.spec.leader, h.world.candidates).value, uid);
    }
  }

  lemma CrashAndLook(h: History) returns (acts: seq<Action>, e: History)
    requires Young(h)
    ensures Reaches(h, acts, e, false) && Recorded(h, e)
  {
    var move, look := PodMovesOn(Crashing(h.world.pod.value)), DoReconcile(FreshUid(1));
    CrashStep(h);
    RecordStep(h, FreshUid(1));
    e := Apply(Crashed(h), look);
    Prepend(Crashed(h), look, [], e, false);
    Prepend(h, move, [look] + [], e, false);
    acts := [move] + ([look] + []);
  }

  /** The failed pod counts as one failure more, and the Sidekick has not failed any longer. */
  lemma LookAgain(h: History, m: History) returns (acts: seq<Action>, e: History)
    requires Young(h) && Recorded(h, m) && BackoffLimit(h.world.sidekick.value.spec) < INT32_MAX
    ensures Reaches(m, acts, e, false) && e.world.sidekick.Some? && e.world.sidekick.value.status.phase == SkDegraded
  {
    CrashingCounts(h.world.pod.value);
    var look := DoReconcile(FreshUid(1));
    FailedCrashTotal(m.world.sidekick.value.spec, m.world.sidekick.value.status, m.world.pod.value);
    PhaseAfterReconcile(m.world, FreshUid(1));
    e := Apply(m, look);
    Prepend(m, look, [], e, false);
    acts := [look] + [];
  }

  /** Failed lasts, in this continuation, as long as the Sidekick does. */
  ghost predicate FailedLasts(h: History, acts: seq<Action>, more: seq<Action>)
    requires Legal(h, acts) && Legal(After(h, acts), more)
  {
    var mid, end := After(h, acts), After(After(h, acts), more);
    mid.world.sidekick.Some? && mid.world.sidekick.value.status.phase == SkFailed && end.world.sidekick.Some?
    ==> end.world.sidekick.value.status.phase == SkFailed || end.world.sidekick.value.status.phase == SkSucceeded
  }

  /** A leader turns up, and the first pod is created. */
  lemma FirstPod(h: History) returns (acts: seq<Action>, e: History)
    requires Initial(h) && Willing(h) && h.world.sidekick.value.spec.containers != []
    ensures Reaches(h, acts, e, false) && Young(e) && e.uncounted == {}
    ensures e.world.sidekick.value.spec == h.world.sidekick.value.spec
    ensures KeyDeletionInitiator in e.world.pod.value.annotations
            <==> KeyDeletionInitiator in h.world.sidekick.value.annotations
    ensures e.world.sidekick.value.annotations == h.world.sidekick.value.annotations
  {
    var offer, m := OfferRun(h, false);
    InitialLedger(m, false);
    var create;
    create, e := CreateRun(m, 0, 0, false);
    FirstPodIsYoung(m, e);
    Append(h, offer, m, create, e, false);
    acts := offer + create;
  }

  /** Without the hypothesis on the sums, a Failed Sidekick leaves Failed: its only pod has restarted as
      often as an int32 can tell, and by failing adds one. */
  lemma OverflowLeavesFailed(h: History) returns (acts: seq<Action>, more: seq<Action>)
    requires Initial(h) && Willing(h) && h.world.sidekick.value.spec.containers != []
    requires BackoffLimit(h.world.sidekick.value.spec) < INT32_MAX
    ensures Legal(h, acts) && Legal(After(h, acts), more) && !FailedLasts(h, acts, more)
  {
    var create, h1 := FirstPod(h);
    var crash, m := CrashAndLook(h1);
    var e;
    more, e := LookAgain(h1, m);
    Append(h, create, h1, crash, m, false);
    acts := create + crash;
    ReachesLegal(h, acts, m, false);
    ReachesLegal(m, more, e, false);
  }

  /** A limit that no int32 exceeds. */
  ghost predicate Unfailing(h: History) {
    h.world.sidekick.Some? ==>
      BackoffLimit(h.world.sidekick.value.spec) == INT32_MAX && h.world.sidekick.value.status.phase != SkFailed
  }

  lemma AdvanceUnfailing(w: World, sk: Sidekick, uid: Uid)
    requires w.sidekick == Some(sk) && BackoffLimit(sk.spec) == INT32_MAX && sk.status.phase != SkFailed
    ensures Advance(w, sk, uid).world.sidekick.Some?
    ensures var sk' := Advance(w, sk, uid).world.sidekick.value; sk'.spec == sk.spec && sk'.status.phase != SkFailed
  {
    ProceedEndsWith(w, sk, Calculate(sk.spec, sk.status, w.pod), uid);
  }

  lemma SidekickUnfailing(h: History, uid: Uid)
    requires Unfailing(h)
    ensures Unfailing(Record(h, ReconcileSidekick(h.world, uid)))
  {
    if h.world.sidekick.Some? {
      var sk := h.world.sidekick.value;
      var pod := if h.world.pod.Some? then Some(h.world.pod.value.(deleting := true)) else None;
      AdvanceUnfailing(h.world.(sidekick := Some(sk.(finalizer := false)), pod := pod), sk.(finalizer := false), uid);
      AdvanceUnfailing(h.world.(sidekick := Some(sk.(finalizer := true))), sk.(finalizer := true), uid);
    }
  }

  lemma StepUnfailing(h: History, a: Action)
    requires Unfailing(h) && Enabled(h, a)
    ensures Unfailing(Apply(h, a))
  {
    if a.DoReconcile? {
      if h.world.pod.Some? && h.world.pod.value.deleting {
        if !h.world.pod.value.finalizer {
          SidekickUnfailing(Counted(h), a.uid);
        }
      } else {
        SidekickUnfailing(h, a.uid);
      }
    }
  }

  lemma {:induction false} RunUnfailing(h: History, acts: seq<Action>)
    requires Unfailing(h) && Legal(h, acts)
    ensures Unfailing(After(h, acts))
    decreases |acts|
  {
    if acts != [] {
      StepUnfailing(h, acts[0]);
      RunUnfailing(Apply(h, acts[0]), acts[1..]);
    }
  }

  /** With no hypothesis on the sums: for a Sidekick with a container, Failed lasts on all legal runs
      if and only if its limit is the largest int32, and then because it never fails at all. */
  lemma FailedLastsIff(h: History)
    requires Initial(h) && Willing(h) && h.world.sidekick.value.spec.containers != []
    ensures (forall acts, more | Legal(h, acts) && Legal(After(h, acts), more) :: FailedLasts(h, acts, more))
            <==> BackoffLimit(h.world.sidekick.value.spec) == INT32_MAX
  {
    if BackoffLimit(h.world.sidekick.value.spec) == INT32_MAX {
      forall acts, more | Legal(h, acts) && Legal(After(h, acts), more) ensures FailedLasts(h, acts, more) {
        RunUnfailing(h, acts);
      }
    } else {
      var acts, more := OverflowLeavesFailed(h);
    }
  }

  // ------------------------------------------------------------------ the retry bound

  /** The loss of the crashing pod counts, and takes the total past the largest int32. */
  lemma LoseCrashed(h: History, m: History) returns (acts: seq<Action>, e: History)
    requires Young(h) && Recorded(h, m) && KeyDeletionInitiator !in h.world.pod.value.annotations
    ensures Reaches(m, acts, e, false) && Ledger(e, 1, INT32_MAX + 1) && ReadyAgain(h, e) && e.created == h.created
  {
    assert Ledger(m, 1, INT32_MAX);
    acts := LosePod(m, FreshUid(1), false);
    LostLedger(m, 1, INT32_MAX, false);
    e := Lost(m);
  }

  lemma WrapAndRetry(h: History, limit: int) returns (acts: seq<Action>, e: History)
    requires Young(h) && limit == BackoffLimit(h.world.sidekick.value.spec)
    requires KeyDeletionInitiator !in h.world.pod.value.annotations
    requires KeyDeletionInitiator !in h.world.sidekick.value.annotations
    ensures Reaches(h, acts, e, false) && |e.created| == limit + 2 && e.uncounted == h.uncounted
  {
    var crash, m := CrashAndLook(h);
    var lose, m' := LoseCrashed(h, m);
    Append(h, crash, m, lose, m', false);
    var cycles;
    cycles, e := CountedCycles(m', 1, INT32_MAX + 1, limit + 1, 0x1_0000_0000, false);
    Append(h, crash + lose, m', cycles, e, false);
    acts := crash + lose + cycles;
  }

  /** Without the hypothesis on the sums, every Sidekick with a container that can be retried gets more pods
      than the bound allows: one that restarts as often as an int32 can tell, and then as many counted
      losses as it takes. */
  lemma OverflowBreaksBound(h: History) returns (acts: seq<Action>)
    requires Initial(h) && Willing(h) && h.world.sidekick.value.spec.containers != []
    ensures Legal(h, acts) && After(h, acts).uncounted == {}
    ensures |After(h, acts).created| == Allowance(BackoffLimit(h.world.sidekick.value.spec)) + 1
  {
    var limit: int := BackoffLimit(h.world.sidekick.value.spec);
    if KeyDeletionInitiator in h.world.sidekick.value.annotations {
      acts := UncountedRetries(h, limit + 2);
    } else {
      var create, h1 := FirstPod(h);
      var rest, e := WrapAndRetry(h1, limit);
      Append(h, create, h1, rest, e, false);
      acts := create + rest;
      ReachesLegal(h, acts, e, false);
    }
  }
}
