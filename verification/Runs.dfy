/**
 Runs of the operator against its environment. A reconcile is one atomic step; between reconciles
 the kubelet moves the pod on, anybody may delete the pod or the Sidekick, a terminating pod
 without the operator's finalizer vanishes, and the candidates for leader change arbitrarily.
 Spec, labels and annotations of the Sidekick are fixed during a run.
 */
module Runs {
  import opened Kube
  import opened Backoff
  import opened Phase
  import opened Leader
  import opened PodBuilder
  import opened Reconcile

  /** The cluster with two history variables: the uids of all pods ever created for the Sidekick, and of
      those the operator deleted because of their leader or for lack of a node while they were not
      marked as failed. */
  datatype History = History(world: World, created: set<Uid>, uncounted: set<Uid>)

  datatype Action =
    | DoReconcile(uid: Uid)
    | PodMovesOn(pod: Pod)
    | DeletePodExternally
    | PodVanishes
    | CandidatesChange(candidates: seq<Candidate>)
    | DeleteSidekick
    | ForeignFinalizers(held: bool)

  /** What kubelet and scheduler may do to a pod: terminal phases stay, restarts never shrink, a node
      once assigned stays, and what is reported are statuses of the pod's own containers. */
  predicate MovesOn(p: Pod, q: Pod) {
    && q == p.(phase := q.phase, spec := p.spec.(node := q.spec.node),
               statuses := q.statuses, initStatuses := q.initStatuses)
    && (p.phase == PodFailed || p.phase == PodSucceeded ==> q.phase == p.phase)
    && ExactRestarts(p) <= ExactRestarts(q)
    && (p.spec.node != "" ==> q.spec.node == p.spec.node)
    && (q.statuses != p.statuses ==> |q.statuses| <= |p.spec.containers|)
    && (q.initStatuses != p.initStatuses ==> |q.initStatuses| <= |p.spec.initContainers|)
  }

  predicate Enabled(h: History, a: Action) {
    var w := h.world;
    match a
    case DoReconcile(uid) => uid !in h.created
    case PodMovesOn(q) => w.pod.Some? && MovesOn(w.pod.value, q)
    case DeletePodExternally => w.pod.Some?
    case PodVanishes => w.pod.Some? && w.pod.value.deleting && !w.pod.value.finalizer
    case CandidatesChange(_) => true
    case DeleteSidekick => w.sidekick.Some? && !w.sidekick.value.deleting
    case ForeignFinalizers(held) => w.sidekick.Some? && (held ==> !w.sidekick.value.deleting)
  }

  /** The deletions that are not counted as failures. */
  predicate Uncounted(r: Reason) {
    r == LeaderLost || r == LeaderChanged || r == NodeEmpty
  }

  /** A deletion that leaves no trace in the failures: for one of those reasons, of a pod not marked. */
  predicate Traceless(o: Outcome) {
    && o.event.Deleted? && Uncounted(o.event.reason)
    && !(o.world.sidekick.Some? && Marked(o.world.sidekick.value.status.failures, o.event.uid))
  }

  function Record(h: History, o: Outcome): History {
    History(o.world,
            if o.event.Created? then h.created + {o.event.uid} else h.created,
            if Traceless(o) then h.uncounted + {o.event.uid} else h.uncounted)
  }

  /** An object without finalizers goes as soon as it is deleted. */
  function Settle(sk: Sidekick): Option<Sidekick> {
    if sk.deleting && !sk.finalizer && !sk.foreignFinalizers then None else Some(sk)
  }

  ghost function Apply(h: History, a: Action): History
    requires Enabled(h, a)
  {
    var w := h.world;
    match a
    case DoReconcile(uid) => Record(h, ReconcileWorld(w, uid))
    case PodMovesOn(q) => h.(world := w.(pod := Some(q)))
    case DeletePodExternally => h.(world := w.(pod := Some(w.pod.value.(deleting := true))))
    case PodVanishes => h.(world := w.(pod := None))
    case CandidatesChange(c) => h.(world := w.(candidates := c))
    case DeleteSidekick =>
      var sk := w.sidekick.value;
      h.(world := w.(sidekick := Settle(sk.(deleting := true, generation := sk.generation + 1))))
    case ForeignFinalizers(held) =>
      h.(world := w.(sidekick := Settle(w.sidekick.value.(foreignFinalizers := held))))
  }

  /** Every action is possible when its turn comes. */
  ghost predicate Legal(h: History, acts: seq<Action>)
    decreases |acts|
  {
    acts != [] ==> Enabled(h, acts[0]) && Legal(Apply(h, acts[0]), acts[1..])
  }

  ghost function After(h: History, acts: seq<Action>): History
    requires Legal(h, acts)
    decreases |acts|
  {
    if acts == [] then h else After(Apply(h, acts[0]), acts[1..])
  }

  /** What every state of a run is assumed to satisfy: the back-off sums fit in an int32. */
  ghost predicate Small(h: History) {
    h.world.sidekick.Some? ==> Fits(h.world.sidekick.value.status, h.world.pod, 2)
  }

  /** acts is a run from h: legal, with sums that fit in every state it passes. */
  ghost predicate Run(h: History, acts: seq<Action>)
    decreases |acts|
  {
    Small(h) && (acts != [] ==> Enabled(h, acts[0]) && Run(Apply(h, acts[0]), acts[1..]))
  }

  ghost function End(h: History, acts: seq<Action>): History
    requires Run(h, acts)
    decreases |acts|
  {
    if acts == [] then h else End(Apply(h, acts[0]), acts[1..])
  }

  /** A Sidekick at the start of its life, before any reconcile. */
  predicate Initial(h: History) {
    && h.world.sidekick.Some? && h.world.pod.None?
    && !h.world.sidekick.value.deleting
    && h.world.sidekick.value.status == Status("", PhaseUnset, SkUnset, 0, map[], map[])
    && h.created == {} && h.uncounted == {}
  }

  // ------------------------------------------------------- basic bookkeeping

  /** Uids come from created pods only, and recorded restarts lag behind the pod's. */
  ghost predicate Base(h: History) {
    var w := h.world;
    && h.uncounted <= h.created
    && (w.pod.Some? ==> w.pod.value.uid in h.created)
    && (w.sidekick.Some? ==>
          var st := w.sidekick.value.status;
          st.failures.Keys <= h.created && st.restarts.Keys <= h.created && RestartsBehind(st, w.pod))
  }

  /** The history in which an external deletion of the pod has just been counted. */
  ghost function Counted(h: History): History
    requires h.world.pod.Some?
  {
    h.(world := CountExternalDeletion(h.world, h.world.pod.value))
  }

  lemma CountedKeeps(h: History)
    requires Base(h) && h.world.pod.Some? && Small(h)
    ensures Base(Counted(h))
    ensures Counted(h).world.sidekick.Some? == h.world.sidekick.Some?
    ensures h.world.sidekick.Some? ==>
              var sk, sk' := h.world.sidekick.value, Counted(h).world.sidekick.value;
              sk' == sk.(status := sk.status.(failures := sk'.status.failures)) && Fits(sk'.status, h.world.pod, 1)
  {
    if h.world.sidekick.Some? {
      MarkOne(h.world.sidekick.value.status.failures, h.world.pod.value.uid);
    }
  }

  /** The history with a new status stored. */
  function Stored(h: History, sk: Sidekick, status: Status): History {
    h.(world := WithStatus(h.world, sk, status))
  }

  lemma StoreKeepsBase(h: History, sk: Sidekick, status: Status)
    requires Base(h) && h.world.sidekick == Some(sk) && Fits(sk.status, h.world.pod, 1)
    requires status.restarts == CurrentRestarts(sk.status, h.world.pod)
    requires status.failures.Keys
             <= sk.status.failures.Keys + (if h.world.pod.Some? then {h.world.pod.value.uid} else {})
    ensures Base(Stored(h, sk, status))
  {
    if h.world.pod.Some? {
      assert RestartCount(h.world.pod.value) == ExactRestarts(h.world.pod.value);
    }
  }

  lemma CalculateKeepsBase(h: History, sk: Sidekick)
    requires Base(h) && h.world.sidekick == Some(sk) && Fits(sk.status, h.world.pod, 1)
    ensures Base(Stored(h, sk, Calculate(sk.spec, sk.status, h.world.pod)))
  {
    CalculateShape(sk.spec, sk.status, h.world.pod);
    StoreKeepsBase(h, sk, Calculate(sk.spec, sk.status, h.world.pod));
  }

  lemma CreateKeepsBase(h: History, sk: Sidekick, leader: Candidate, built: Result<PodSpec>, uid: Uid)
    requires Base(h) && h.world.sidekick == Some(sk) && uid !in h.created
    ensures Base(Record(h, CreateBuilt(h.world, sk, leader, built, uid)))
  {
  }

  lemma DeleteKeepsBase(h: History, sk: Sidekick, status: Status, reason: Reason)
    requires Base(h) && h.world.sidekick == Some(sk) && h.world.pod.Some?
    requires status.restarts == sk.status.restarts && status.failures.Keys <= h.created
    ensures Base(Record(h, DeletePodAndResetStatus(h.world, sk, status, h.world.pod.value, reason)))
  {
  }

  lemma SyncKeepsBase(h: History, sk: Sidekick, leader: Candidate)
    requires Base(h) && h.world.sidekick == Some(sk) && h.world.pod.Some?
    ensures Base(Record(h, SyncExistingPod(h.world, sk, leader, h.world.pod.value)))
  {
    var pod := h.world.pod.value;
    var reason := RecreateReason(sk, leader, pod);
    DeleteKeepsBase(h, sk, sk.status, reason);
    DeleteKeepsBase(h, sk, sk.status.(failures := sk.status.failures[pod.uid := true]), reason);
  }

  lemma FollowKeepsBase(h: History, sk: Sidekick, leader: Option<Candidate>, uid: Uid)
    requires Base(h) && h.world.sidekick == Some(sk) && uid !in h.created
    ensures Base(Record(h, Follow(h.world, sk, leader, uid)))
  {
    if h.world.pod.Some? {
      DeleteKeepsBase(h, sk, sk.status, if leader.None? then LeaderLost else LeaderChanged);
      if leader.Some? {
        SyncKeepsBase(h, sk, leader.value);
      }
    } else if leader.Some? {
      CreateKeepsBase(h, sk, leader.value, BuildSpec(sk.spec, leader.value), uid);
    }
  }

  lemma StopKeepsBase(h: History, sk: Sidekick, status: Status, uid: Uid)
    requires Base(Stored(h, sk, status)) && (status.phase == SkFailed || status.phase == SkSucceeded)
    ensures Base(Record(h, Proceed(h.world, sk, status, uid)))
  {
  }

  lemma ProceedKeepsBase(h: History, sk: Sidekick, status: Status, uid: Uid)
    requires Base(Stored(h, sk, status)) && uid !in h.created
    ensures Base(Record(h, Proceed(h.world, sk, status, uid)))
  {
    if status.phase == SkFailed || status.phase == SkSucceeded {
      StopKeepsBase(h, sk, status, uid);
    } else {
      var h' := Stored(h, sk, status);
      var sk' := sk.(status := status);
      FollowKeepsBase(h', sk', GetLeader(sk'.spec.leader, h'.world.candidates), uid);
    }
  }

  lemma AdvanceKeepsBase(h: History, sk: Sidekick, uid: Uid)
    requires Base(h) && h.world.sidekick == Some(sk) && uid !in h.created && Fits(sk.status, h.world.pod, 1)
    ensures Base(Record(h, Advance(h.world, sk, uid)))
  {
    CalculateKeepsBase(h, sk);
    ProceedKeepsBase(h, sk, Calculate(sk.spec, sk.status, h.world.pod), uid);
  }

  lemma GoingKeepsBase(h: History, sk: Sidekick, uid: Uid)
    requires Base(h) && h.world.sidekick == Some(sk) && sk.deleting && uid !in h.created
    requires Fits(sk.status, h.world.pod, 1)
    ensures Base(Record(h, ReconcileSidekick(h.world, uid)))
  {
    if sk.finalizer && sk.foreignFinalizers {
      var sk' := sk.(finalizer := false);
      var pod := if h.world.pod.Some? then Some(h.world.pod.value.(deleting := true)) else None;
      var h' := h.(world := h.world.(sidekick := Some(sk'), pod := pod));
      DeletingKeepsBase(h, h');
      AdvanceKeepsBase(h', sk', uid);
    }
  }

  /** The marks of a deletion do not touch the books. */
  lemma DeletingKeepsBase(h: History, h': History)
    requires Base(h) && h.world.sidekick.Some? && h'.world.sidekick.Some? && h'.created == h.created
    requires h'.uncounted == h.uncounted
    requires h'.world.sidekick.value.status == h.world.sidekick.value.status
    requires h.world.pod.Some? == h'.world.pod.Some?
    requires h.world.pod.Some? ==> h'.world.pod.value == h.world.pod.value.(deleting := true)
    ensures Base(h')
    ensures forall room | Fits(h.world.sidekick.value.status, h.world.pod, room) ::
              Fits(h'.world.sidekick.value.status, h'.world.pod, room)
  {
  }

  lemma LivingKeepsBase(h: History, sk: Sidekick, uid: Uid)
    requires Base(h) && h.world.sidekick == Some(sk) && !sk.deleting && uid !in h.created
    requires Fits(sk.status, h.world.pod, 1)
    ensures Base(Record(h, ReconcileSidekick(h.world, uid)))
  {
    var sk' := sk.(finalizer := true);
    AdvanceKeepsBase(h.(world := h.world.(sidekick := Some(sk'))), sk', uid);
  }

  lemma SidekickKeepsBase(h: History, uid: Uid)
    requires Base(h) && uid !in h.created
    requires h.world.sidekick.Some? ==> Fits(h.world.sidekick.value.status, h.world.pod, 1)
    ensures Base(Record(h, ReconcileSidekick(h.world, uid)))
  {
    if h.world.sidekick.Some? {
      if h.world.sidekick.value.deleting {
        GoingKeepsBase(h, h.world.sidekick.value, uid);
      } else {
        LivingKeepsBase(h, h.world.sidekick.value, uid);
      }
    }
  }

  lemma StepKeepsBase(h: History, a: Action)
    requires Base(h) && Small(h) && Enabled(h, a)
    ensures Base(Apply(h, a))
  {
    if a.DoReconcile? {
      if h.world.pod.Some? && h.world.pod.value.deleting {
        CountedKeeps(h);
        if !h.world.pod.value.finalizer {
          SidekickKeepsBase(Counted(h), a.uid);
        }
      } else {
        SidekickKeepsBase(h, a.uid);
      }
    }
  }
}
