/**
 Two tied candidates: whenever the list is given in the other order the leader changes, the pod is deleted
 without being counted, and a new one is created, under any limit.
 */
module Ties {
  import opened Kube
  import opened Backoff
  import opened Phase
  import opened Leader
  import opened PodBuilder
  import opened Reconcile
  import opened Runs
  import opened Scenarios

  /** Two Running pods of different names, neither before the other, each fit to be the leader. */
  ghost predicate Tied(spec: SidekickSpec, p: Candidate, q: Candidate) {
    && spec.leader.name == "" && Eligible(p) && Eligible(q) && p.name != q.name
    && !PodLess(p, q) && !PodLess(q, p)
    && BuildSpec(spec, p).Ok? && BuildSpec(spec, q).Ok?
  }

  /** Reconciles, a pod that vanishes, and lists of the same two candidates. */
  predicate OnlyRelists(acts: seq<Action>, p: Candidate, q: Candidate) {
    forall a | a in acts ::
      a.DoReconcile? || a.PodVanishes? || a == CandidatesChange([p, q]) || a == CandidatesChange([q, p])
  }

  ghost predicate RelistReach(h: History, acts: seq<Action>, e: History, p: Candidate, q: Candidate) {
    Reaches(h, acts, e, true) && OnlyRelists(acts, p, q)
  }

  /** No pod, nothing on the books, the candidates in the order p, q. */
  ghost predicate Ready(h: History, n: nat, p: Candidate, q: Candidate) {
    && Willing(h) && !h.world.sidekick.value.deleting && Tied(h.world.sidekick.value.spec, p, q)
    && h.world.candidates == [p, q] && h.world.pod.None?
    && Ledger(h, n, 0) && Room(h, 0, true)
  }

  lemma ReadyIsRetryable(h: History, n: nat, p: Candidate, q: Candidate)
    requires Ready(h, n, p, q)
    ensures Retryable(h)
  {
    PairChoice(h.world.sidekick.value.spec.leader, p, q);
  }

  /** A live, pending pod of the leader that the status names, not on the books as failed. */
  ghost predicate Serving(h: History) {
    && Willing(h) && !h.world.sidekick.value.deleting && h.world.pod.Some?
    && (var pod := h.world.pod.value;
        && pod.finalizer && !pod.deleting && pod.phase == PodPending && ExactRestarts(pod) == 0
        && pod.uid in h.created && pod.uid !in h.world.sidekick.value.status.failures
        && pod.uid !in h.world.sidekick.value.status.restarts)
  }

  lemma LookPending(spec: SidekickSpec, status: Status, pod: Pod)
    requires pod.phase == PodPending && ExactRestarts(pod) == 0 && pod.uid !in status.restarts
    requires spec.policy != Always && BackoffLimit(spec) >= 0 && status.phase != SkSucceeded
    requires ExactTotal(status.failures, status.restarts) == 0
    ensures var st := Calculate(spec, status, Some(pod));
            && st == status.(restarts := status.restarts[pod.uid := 0], phase := SkDegraded)
            && ExactTotal(st.failures, st.restarts) == 0
  {
    SumMapPut(status.restarts, pod.uid, 0);
  }

  /** Another leader than the one in the status: the pod is deleted. */
  lemma OtherLeaderDeletes(w: World, uid: Uid)
    requires w.sidekick.Some? && !w.sidekick.value.deleting && w.pod.Some? && !w.pod.value.deleting
    requires var sk := w.sidekick.value;
             var leader := GetLeader(sk.spec.leader, w.candidates);
             leader.Some? && leader.value.name != sk.status.leaderName
    requires var p := Calculate(w.sidekick.value.spec, w.sidekick.value.status, w.pod).phase;
             p != SkFailed && p != SkSucceeded
    ensures var sk := w.sidekick.value;
            var sk' := sk.(finalizer := true, status := Calculate(sk.spec, sk.status, w.pod));
            var w' := w.(sidekick := Some(sk'));
            ReconcileWorld(w, uid) == DeletePodAndResetStatus(w', sk', sk'.status, w.pod.value, LeaderChanged)
  {
  }

  /** The pod deleted by the operator, uncounted; its restarts are recorded. */
  ghost function Dropped(h: History): History
    requires h.world.sidekick.Some? && h.world.pod.Some?
  {
    var sk, pod := h.world.sidekick.value, h.world.pod.value;
    var status := sk.status.(restarts := sk.status.restarts[pod.uid := 0], phase := SkDegraded);
    var sk' := sk.(finalizer := true, status := ResetStatus(sk, status));
    History(h.world.(sidekick := Some(sk'), pod := Some(MarkDeleted(pod))), h.created, h.uncounted + {pod.uid})
  }

  lemma DropStep(h: History, n: nat, uid: Uid)
    requires Serving(h) && Ledger(h, n, 0) && uid !in h.created
    requires var sk := h.world.sidekick.value;
             var leader := GetLeader(sk.spec.leader, h.world.candidates);
             leader.Some? && leader.value.name != sk.status.leaderName
    ensures Apply(h, DoReconcile(uid)) == Dropped(h)
  {
    LookPending(h.world.sidekick.value.spec, h.world.sidekick.value.status, h.world.pod.value);
    OtherLeaderDeletes(h.world, uid);
  }

  /** Then its finalizer goes, and then the pod. */
  ghost function Unprotected(h: History): History
    requires h.world.pod.Some?
  {
    h.(world := h.world.(pod := Some(h.world.pod.value.(finalizer := false))))
  }

  ghost function Gone(h: History): History {
    h.(world := h.world.(pod := None))
  }

  lemma ReleaseSteps(h: History, uid: Uid)
    requires h.world.sidekick.Some? && h.world.pod.Some? && h.world.pod.value.deleting && h.world.pod.value.finalizer
    requires KeyDeletionInitiator in h.world.pod.value.annotations && uid !in h.created
    ensures Apply(h, DoReconcile(uid)) == Unprotected(h)
    ensures Enabled(Unprotected(h), PodVanishes) && Apply(Unprotected(h), PodVanishes) == Gone(h)
  {
  }

  lemma DroppedIsSmall(h: History, n: nat)
    requires Serving(h) && Ledger(h, n, 0) && Room(h, 0, true)
    ensures var d := Dropped(h); Small(d) && Small(Unprotected(d)) && Small(Gone(d))
    ensures var d := Dropped(h); Ledger(Gone(d), n, 0) && Room(Gone(d), 0, true)
  {
    var d := Dropped(h);
    var st := d.world.sidekick.value.status;
    SumMapPut(h.world.sidekick.value.status.restarts, h.world.pod.value.uid, 0);
    BooksAreSmall(st, d.world.pod);
    BooksAreSmall(st, Unprotected(d).world.pod);
    BooksAreSmall(st, None);
  }

  /** The list comes in the other order, and the pod is dropped. */
  lemma DropRun(h: History, n: nat, p: Candidate, q: Candidate) returns (acts: seq<Action>, e: History)
    requires Serving(h) && Ledger(h, n, 0) && Room(h, 0, true) && h.world.candidates == [q, p]
    requires GetLeader(h.world.sidekick.value.spec.leader, [q, p]).Some?
    requires var sk := h.world.sidekick.value;
             GetLeader(sk.spec.leader, [q, p]).value.name != sk.status.leaderName
    ensures RelistReach(h, acts, e, p, q) && e == Gone(Dropped(h))
    ensures Ledger(e, n, 0) && Room(e, 0, true)
  {
    var look := DoReconcile(FreshUid(n));
    var d := Dropped(h);
    DropStep(h, n, FreshUid(n));
    ReleaseSteps(d, FreshUid(n));
    DroppedIsSmall(h, n);
    BooksAreSmall(h.world.sidekick.value.status, h.world.pod);
    e := Gone(d);
    Prepend(Unprotected(d), PodVanishes, [], e, true);
    Prepend(d, look, [PodVanishes] + [], e, true);
    Prepend(h, look, [look] + ([PodVanishes] + []), e, true);
    acts := [look] + ([look] + ([PodVanishes] + []));
  }

  /** The state with the list in the given order. */
  function Relisted(h: History, c: seq<Candidate>): History {
    h.(world := h.world.(candidates := c))
  }

  lemma RelistStep(h: History, n: nat, p: Candidate, q: Candidate) returns (acts: seq<Action>)
    requires Serving(h) && Ledger(h, n, 0) && Room(h, 0, true)
    ensures RelistReach(h, acts, Relisted(h, [q, p]), p, q)
  {
    BooksAreSmall(h.world.sidekick.value.status, h.world.pod);
    Prepend(h, CandidatesChange([q, p]), [], Relisted(h, [q, p]), true);
    acts := [CandidatesChange([q, p])] + [];
  }

  lemma Join(h: History, acts: seq<Action>, m: History, more: seq<Action>, e: History, p: Candidate, q: Candidate)
    requires RelistReach(h, acts, m, p, q) && RelistReach(m, more, e, p, q)
    ensures RelistReach(h, acts + more, e, p, q)
  {
    Append(h, acts, m, more, e, true);
  }

  function Chosen(spec: SidekickSpec, p: Candidate, q: Candidate): Candidate {
    if spec.leader.selection == PolicyFirst then p else q
  }

  lemma ServingAfter(h: History, e: History, n: nat, p: Candidate, q: Candidate)
    requires Ready(h, n, p, q) && Retryable(h) && OneMorePod(h, e, FreshUid(n)) && Untouched(e)
    ensures Serving(e) && e.world.sidekick.value.spec == h.world.sidekick.value.spec
    ensures e.world.sidekick.value.status.leaderName == Chosen(h.world.sidekick.value.spec, p, q).name
  {
    PairChoice(h.world.sidekick.value.spec.leader, p, q);
  }

  lemma CreateServing(h: History, n: nat, p: Candidate, q: Candidate) returns (acts: seq<Action>, e: History)
    requires Ready(h, n, p, q)
    ensures RelistReach(h, acts, e, p, q) && Serving(e) && Ledger(e, n + 1, 0) && Room(e, 0, true)
    ensures e.world.sidekick.value.spec == h.world.sidekick.value.spec && e.uncounted == h.uncounted
    ensures e.created == h.created + {e.world.pod.value.uid} && |e.created| == |h.created| + 1
    ensures e.world.sidekick.value.status.leaderName == Chosen(h.world.sidekick.value.spec, p, q).name
  {
    ReadyIsRetryable(h, n, p, q);
    assert Wrap32(0) == 0;
    acts, e := CreateRun(h, n, 0, true);
    ServingAfter(h, e, n, p, q);
  }

  /** One pod created and dropped; the candidates are then in the other order. */
  lemma Flip(h: History, n: nat, p: Candidate, q: Candidate) returns (acts: seq<Action>, e: History)
    requires Ready(h, n, p, q)
    ensures RelistReach(h, acts, e, p, q) && Ready(e, n + 1, q, p)
    ensures |e.created| == |h.created| + 1 && (h.uncounted == h.created ==> e.uncounted == e.created)
  {
    var create, h1 := CreateServing(h, n, p, q);
    var relist := RelistStep(h1, n + 1, p, q);
    var h2 := Relisted(h1, [q, p]);
    PairChoice(h.world.sidekick.value.spec.leader, p, q);
    PairChoice(h.world.sidekick.value.spec.leader, q, p);
    var drop;
    drop, e := DropRun(h2, n + 1, p, q);
    Join(h, create, h1, relist, h2, p, q);
    Join(h, create + relist, h2, drop, e, p, q);
    acts := create + relist + drop;
  }

  lemma {:induction false} Flips(h: History, n: nat, p: Candidate, q: Candidate, k: nat)
      returns (acts: seq<Action>, e: History)
    requires Ready(h, n, p, q) && h.uncounted == h.created
    ensures RelistReach(h, acts, e, p, q) && |e.created| == |h.created| + k && e.uncounted == e.created
    decreases k
  {
    if k == 0 {
      BooksAreSmall(h.world.sidekick.value.status, None);
      acts, e := [], h;
    } else {
      var once, m := Flip(h, n, p, q);
      var rest;
      rest, e := Flips(m, n + 1, q, p, k - 1);
      Join(h, once, m, rest, e, p, q);
      acts := once + rest;
    }
  }

  /** With two tied candidates, lists of these two in changing order alone make the operator create and
      delete any number of pods, all of them uncounted, whatever the limit. */
  lemma TiesChurn(h: History, p: Candidate, q: Candidate, k: nat) returns (acts: seq<Action>)
    requires Initial(h) && Willing(h) && Tied(h.world.sidekick.value.spec, p, q) && h.world.candidates == [p, q]
    ensures Run(h, acts) && OnlyRelists(acts, p, q)
    ensures |End(h, acts).created| == k && End(h, acts).uncounted == End(h, acts).created
  {
    assert TrueKeys(map[]) == {};
    var e;
    acts, e := Flips(h, 0, p, q, k);
    ReachesRun(h, acts, e);
  }
}
