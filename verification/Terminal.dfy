/**
 Failed and Succeeded are final: with a policy other than Always, a Sidekick that has reached one
 of them never leaves the two, never leaves Succeeded, and gets no further pod.
 */
module Terminal {
  import opened Kube
  import opened Backoff
  import opened Phase
  import opened Leader
  import opened PodBuilder
  import opened Reconcile
  import opened Runs

  ghost predicate Exceeded(spec: SidekickSpec, status: Status) {
    ExactTotal(status.failures, status.restarts) > BackoffLimit(spec)
  }

  predicate Live(pod: Option<Pod>) { pod.Some? && !pod.value.deleting }

  /** A live pod is marked only if it failed; a Failed Sidekick is over its limit for good, since
      under a policy other than Never the entry of its live pod, the only one that can be reset,
      is not among the marked ones. */
  ghost predicate Sound(sk: Sidekick, pod: Option<Pod>) {
    var st := sk.status;
    && sk.spec.policy != Always
    && (Live(pod) && Marked(st.failures, pod.value.uid) ==> pod.value.phase == PodFailed)
    && (st.phase == SkFailed ==>
          Exceeded(sk.spec, st) && (sk.spec.policy != Never && Live(pod) ==> !Marked(st.failures, pod.value.uid)))
  }

  ghost predicate SoundHistory(h: History) {
    Base(h) && (h.world.sidekick.Some? ==> Sound(h.world.sidekick.value, h.world.pod))
  }

  predicate Final(p: SidekickPhase) { p == SkFailed || p == SkSucceeded }

  /** The phase moves only towards the final ones. */
  predicate Later(p: SidekickPhase, q: SidekickPhase) {
    (p == SkSucceeded ==> q == SkSucceeded) && (p == SkFailed ==> Final(q))
  }

  /** Looking at the pod never brings a total that was over the limit back under it. */
  lemma ObserveKeepsExceeded(sk: Sidekick, pod: Option<Pod>)
    requires Sound(sk, pod) && sk.status.phase == SkFailed
    requires Fits(sk.status, pod, 1) && RestartsBehind(sk.status, pod)
    ensures Exceeded(sk.spec, Observe(sk.spec, sk.status, pod))
  {
    var seen := Observe(sk.spec, sk.status, pod);
    CurrentRestartsGrow(sk.status, pod);
    OverLimitExact(sk.spec, sk.status, pod);
    if pod.Some? {
      MarkOne(sk.status.failures, pod.value.uid);
    }
  }

  lemma CalculateSound(sk: Sidekick, pod: Option<Pod>)
    requires Sound(sk, pod) && Fits(sk.status, pod, 1) && RestartsBehind(sk.status, pod)
    ensures var sk' := sk.(status := Calculate(sk.spec, sk.status, pod));
            Sound(sk', pod) && Later(sk.status.phase, sk'.status.phase)
  {
    var seen := Observe(sk.spec, sk.status, pod);
    OverLimitExact(sk.spec, sk.status, pod);
    if sk.status.phase == SkFailed {
      ObserveKeepsExceeded(sk, pod);
    }
  }

  /** The step has left the phase alone and the Sidekick sound. */
  ghost predicate SamePhase(sk: Sidekick, w: World) {
    w.sidekick.Some? && Sound(w.sidekick.value, w.pod) && w.sidekick.value.status.phase == sk.status.phase
  }

  lemma DeleteSound(w: World, sk: Sidekick, status: Status, pod: Pod, reason: Reason)
    requires sk.spec.policy != Always && !Final(sk.status.phase) && status.phase == sk.status.phase
    ensures SamePhase(sk, DeletePodAndResetStatus(w, sk, status, pod, reason).world)
  {
  }

  lemma CreateSound(h: History, sk: Sidekick, leader: Candidate, built: Result<PodSpec>, uid: Uid)
    requires SoundHistory(h) && h.world.sidekick == Some(sk) && !Final(sk.status.phase) && uid !in h.created
    ensures SamePhase(sk, CreateBuilt(h.world, sk, leader, built, uid).world)
  {
  }

  lemma SyncSound(w: World, sk: Sidekick, leader: Candidate, pod: Pod)
    requires w == World(Some(sk), Some(pod), w.candidates) && Sound(sk, w.pod) && !Final(sk.status.phase)
    ensures SamePhase(sk, SyncExistingPod(w, sk, leader, pod).world)
  {
    if PodNeedsRecreate(sk, leader, pod) {
      var reason := RecreateReason(sk, leader, pod);
      DeleteSound(w, sk, sk.status, pod, reason);
      DeleteSound(w, sk, sk.status.(failures := sk.status.failures[pod.uid := true]), pod, reason);
    }
  }

  lemma FollowSound(h: History, sk: Sidekick, leader: Option<Candidate>, uid: Uid)
    requires SoundHistory(h) && h.world.sidekick == Some(sk) && !Final(sk.status.phase) && uid !in h.created
    ensures SamePhase(sk, Follow(h.world, sk, leader, uid).world)
  {
    if h.world.pod.Some? {
      var pod := h.world.pod.value;
      DeleteSound(h.world, sk, sk.status, pod, if leader.None? then LeaderLost else LeaderChanged);
      if leader.Some? {
        SyncSound(h.world, sk, leader.value, pod);
      }
    } else if leader.Some? {
      CreateSound(h, sk, leader.value, BuildSpec(sk.spec, leader.value), uid);
    }
  }

  lemma ProceedSound(h: History, sk: Sidekick, status: Status, uid: Uid)
    requires SoundHistory(Stored(h, sk, status)) && uid !in h.created
    ensures var o := Proceed(h.world, sk, status, uid);
            && SamePhase(sk.(status := status), o.world)
            && (Final(status.phase) ==> o.event == Quiet)
  {
    var h1 := Stored(h, sk, status);
    var sk1 := sk.(status := status);
    if !Final(status.phase) {
      FollowSound(h1, sk1, GetLeader(sk1.spec.leader, h1.world.candidates), uid);
    }
  }

  lemma AdvanceSound(h: History, sk: Sidekick, uid: Uid)
    requires SoundHistory(h) && h.world.sidekick == Some(sk) && uid !in h.created && Fits(sk.status, h.world.pod, 1)
    ensures var o := Advance(h.world, sk, uid);
            && o.world.sidekick.Some? && Sound(o.world.sidekick.value, o.world.pod)
            && Later(sk.status.phase, o.world.sidekick.value.status.phase)
            && (Final(sk.status.phase) ==> o.event == Quiet)
  {
    CalculateSound(sk, h.world.pod);
    CalculateKeepsBase(h, sk);
    ProceedSound(h, sk, Calculate(sk.spec, sk.status, h.world.pod), uid);
  }

  /** What a step does to a sound history. */
  ghost predicate Progressed(w: World, o: Outcome) {
    && (o.world.sidekick.Some? ==>
          && w.sidekick.Some?
          && Sound(o.world.sidekick.value, o.world.pod)
          && Later(w.sidekick.value.status.phase, o.world.sidekick.value.status.phase))
    && (w.sidekick.None? || Final(w.sidekick.value.status.phase) ==> o.event == Quiet)
  }

  lemma SidekickSound(h: History, uid: Uid)
    requires SoundHistory(h) && uid !in h.created
    requires h.world.sidekick.Some? ==> Fits(h.world.sidekick.value.status, h.world.pod, 1)
    ensures Progressed(h.world, ReconcileSidekick(h.world, uid))
  {
    var w := h.world;
    if w.sidekick.Some? {
      var sk := w.sidekick.value;
      if !sk.deleting {
        var sk' := sk.(finalizer := true);
        AdvanceSound(h.(world := w.(sidekick := Some(sk'))), sk', uid);
      } else if sk.finalizer && sk.foreignFinalizers {
        var sk' := sk.(finalizer := false);
        var pod := if w.pod.Some? then Some(w.pod.value.(deleting := true)) else None;
        AdvanceSound(h.(world := w.(sidekick := Some(sk'), pod := pod)), sk', uid);
      }
    }
  }

  lemma CountedSound(h: History)
    requires SoundHistory(h) && Small(h) && h.world.pod.Some? && h.world.pod.value.deleting
    ensures SoundHistory(Counted(h))
    ensures Progressed(h.world, Outcome(Counted(h).world, Quiet))
    ensures h.world.sidekick.Some? == Counted(h).world.sidekick.Some?
    ensures h.world.sidekick.Some?
            ==> Counted(h).world.sidekick.value.status.phase == h.world.sidekick.value.status.phase
  {
    CountedKeeps(h);
    if h.world.sidekick.Some? {
      MarkOne(h.world.sidekick.value.status.failures, h.world.pod.value.uid);
    }
  }

  lemma ReconcileSound(h: History, uid: Uid)
    requires SoundHistory(h) && Small(h) && uid !in h.created
    ensures Progressed(h.world, ReconcileWorld(h.world, uid))
  {
    if h.world.pod.Some? && h.world.pod.value.deleting {
      CountedKeeps(h);
      CountedSound(h);
      if !h.world.pod.value.finalizer {
        SidekickSound(Counted(h), uid);
      }
    } else {
      SidekickSound(h, uid);
    }
  }

  /** Every step keeps soundness and moves the phase only forward; once the phase is final or the
      Sidekick gone, no step creates a pod. */
  lemma StepSound(h: History, a: Action)
    requires SoundHistory(h) && Small(h) && Enabled(h, a)
    ensures SoundHistory(Apply(h, a))
    ensures Apply(h, a).world.sidekick.Some? ==>
              && h.world.sidekick.Some?
              && Later(h.world.sidekick.value.status.phase, Apply(h, a).world.sidekick.value.status.phase)
    ensures h.world.sidekick.None? || Final(h.world.sidekick.value.status.phase) ==> Apply(h, a).created == h.created
  {
    StepKeepsBase(h, a);
    if a.DoReconcile? {
      ReconcileSound(h, a.uid);
    }
  }

  /** The history whose run has reached a final phase, or whose Sidekick is gone. */
  predicate Settled(h: History) {
    h.world.sidekick.None? || Final(h.world.sidekick.value.status.phase)
  }

  lemma {:induction false} SettledForever(h: History, acts: seq<Action>)
    requires SoundHistory(h) && Run(h, acts) && Settled(h)
    ensures Settled(End(h, acts)) && End(h, acts).created == h.created
    ensures End(h, acts).world.sidekick.Some? ==>
              && h.world.sidekick.Some?
              && Later(h.world.sidekick.value.status.phase, End(h, acts).world.sidekick.value.status.phase)
    decreases |acts|
  {
    if acts != [] {
      StepSound(h, acts[0]);
      SettledForever(Apply(h, acts[0]), acts[1..]);
    }
  }

  lemma {:induction false} RunSound(h: History, acts: seq<Action>)
    requires SoundHistory(h) && Run(h, acts)
    ensures SoundHistory(End(h, acts))
    decreases |acts|
  {
    if acts != [] {
      StepSound(h, acts[0]);
      RunSound(Apply(h, acts[0]), acts[1..]);
    }
  }

  /** Terminal phases absorb: after any run of a fresh Sidekick with a policy other than Always that
      reaches Failed or Succeeded, every continuation keeps the phase among the two, keeps Succeeded
      as it is, and creates no pod. */
  lemma TerminalPhasesAbsorb(h: History, acts: seq<Action>, more: seq<Action>)
    requires Initial(h) && h.world.sidekick.value.spec.policy != Always
    requires Run(h, acts) && Run(End(h, acts), more)
    requires End(h, acts).world.sidekick.Some? && Final(End(h, acts).world.sidekick.value.status.phase)
    ensures var mid, end := End(h, acts), End(End(h, acts), more);
            && end.created == mid.created
            && (end.world.sidekick.Some? ==>
                  && Final(end.world.sidekick.value.status.phase)
                  && (mid.world.sidekick.value.status.phase == SkSucceeded
                    ==> end.world.sidekick.value.status.phase == SkSucceeded))
  {
    RunSound(h, acts);
    SettledForever(End(h, acts), more);
  }
}
