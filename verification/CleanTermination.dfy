/**
 Deleting a Sidekick that only the operator holds: no pod is created any more, the deletion of its
 pod never counts as a failure, and two reconciles clear both finalizers whatever happens around them.
 */
module CleanTermination {
  import opened Kube
  import opened Phase
  import opened Leader
  import opened Reconcile
  import opened Runs

  /** Deleted, and held by the operator alone; or already gone, with its pod going too. A live pod
      still carries the operator's finalizer. */
  ghost predicate Doomed(w: World) {
    && (w.sidekick.Some? ==>
          w.sidekick.value.deleting && w.sidekick.value.finalizer && !w.sidekick.value.foreignFinalizers)
    && (w.sidekick.None? && w.pod.Some? ==> w.pod.value.deleting)
    && (w.pod.Some? && !w.pod.value.deleting ==> w.pod.value.finalizer)
  }

  /** Finalizers of the operator still in place. */
  function Pending(w: World): nat {
    (if w.sidekick.Some? then 1 else 0) + (if w.pod.Some? && w.pod.value.finalizer then 1 else 0)
  }

  /** Nothing but the deletion itself happens to a doomed Sidekick. */
  ghost predicate WindsDown(w: World, w': World) {
    && Doomed(w') && Pending(w') <= Pending(w)
    && (w'.sidekick.Some? ==> w.sidekick.Some? && w'.sidekick.value.status == w.sidekick.value.status)
    && (w'.pod.Some? ==> w.pod.Some? && w'.pod.value.uid == w.pod.value.uid)
  }

  lemma ReconcileWindsDown(w: World, uid: Uid)
    requires Doomed(w)
    ensures ReconcileWorld(w, uid).event == Quiet
    ensures WindsDown(w, ReconcileWorld(w, uid).world)
    ensures Pending(w) > 0 ==> Pending(ReconcileWorld(w, uid).world) < Pending(w)
  {
  }

  lemma StepWindsDown(h: History, a: Action)
    requires Doomed(h.world) && Enabled(h, a)
    ensures WindsDown(h.world, Apply(h, a).world)
    ensures Apply(h, a).created == h.created && Apply(h, a).uncounted == h.uncounted
    ensures a.DoReconcile? && Pending(h.world) > 0 ==> Pending(Apply(h, a).world) < Pending(h.world)
  {
    if a.DoReconcile? {
      ReconcileWindsDown(h.world, a.uid);
    }
  }

  function Reconciles(acts: seq<Action>): nat {
    if acts == [] then 0 else (if acts[0].DoReconcile? then 1 else 0) + Reconciles(acts[1..])
  }

  /** Clean termination: in every run after the deletion, no pod is created, as long as the Sidekick
      exists its status (and with it every failure entry) is untouched, and after two reconciles,
      whatever else happens between and around them, the Sidekick is gone and its pod, if still
      there, is terminating without the operator's finalizer. */
  lemma {:induction false} CleanRun(h: History, acts: seq<Action>)
    requires Doomed(h.world) && Legal(h, acts)
    ensures After(h, acts).created == h.created
    ensures WindsDown(h.world, After(h, acts).world)
    ensures Pending(After(h, acts).world)
            <= if Reconciles(acts) < Pending(h.world) then Pending(h.world) - Reconciles(acts) else 0
    ensures Reconciles(acts) >= 2 ==>
              var w := After(h, acts).world;
              w.sidekick.None? && (w.pod.Some? ==> w.pod.value.deleting && !w.pod.value.finalizer)
    decreases |acts|
  {
    if acts != [] {
      StepWindsDown(h, acts[0]);
      CleanRun(Apply(h, acts[0]), acts[1..]);
    }
  }

  // ------------------------------------------------------------------ from the start of life

  /** A live pod carries the operator's finalizer, and so does a Sidekick that has a pod and is not being
      deleted. */
  ghost predicate Held(w: World) {
    && (w.pod.Some? && !w.pod.value.deleting ==> w.pod.value.finalizer)
    && (w.pod.Some? && w.sidekick.Some? && !w.sidekick.value.deleting ==> w.sidekick.value.finalizer)
  }

  lemma FollowHeld(w: World, sk: Sidekick, leader: Option<Candidate>, uid: Uid)
    requires Held(w) && w.sidekick == Some(sk) && (sk.finalizer || sk.deleting)
    ensures Held(Follow(w, sk, leader, uid).world)
  {
  }

  lemma AdvanceHeld(w: World, sk: Sidekick, uid: Uid)
    requires Held(w) && w.sidekick == Some(sk) && (sk.finalizer || sk.deleting)
    ensures Held(Advance(w, sk, uid).world)
  {
    var sk' := sk.(status := Calculate(sk.spec, sk.status, w.pod));
    var w' := w.(sidekick := Some(sk'));
    FollowHeld(w', sk', GetLeader(sk'.spec.leader, w'.candidates), uid);
  }

  lemma ReconcileHeld(w: World, uid: Uid)
    requires Held(w)
    ensures Held(ReconcileWorld(w, uid).world)
  {
    var w' := if w.pod.Some? && w.pod.value.deleting then CountExternalDeletion(w, w.pod.value) else w;
    if w'.sidekick.Some? {
      var sk := w'.sidekick.value;
      if sk.deleting {
        var pod := if w.pod.Some? then Some(w.pod.value.(deleting := true)) else None;
        AdvanceHeld(w'.(sidekick := Some(sk.(finalizer := false)), pod := pod), sk.(finalizer := false), uid);
      } else {
        AdvanceHeld(w'.(sidekick := Some(sk.(finalizer := true))), sk.(finalizer := true), uid);
      }
    }
  }

  lemma StepHeld(h: History, a: Action)
    requires Held(h.world) && Enabled(h, a)
    ensures Held(Apply(h, a).world)
  {
    if a.DoReconcile? {
      ReconcileHeld(h.world, a.uid);
    }
  }

  lemma {:induction false} RunHeld(h: History, acts: seq<Action>)
    requires Held(h.world) && Legal(h, acts)
    ensures Held(After(h, acts).world)
    decreases |acts|
  {
    if acts != [] {
      StepHeld(h, acts[0]);
      RunHeld(Apply(h, acts[0]), acts[1..]);
    }
  }

  /** Deleting a Sidekick that nobody else holds dooms it, or removes it at once if it never had a pod. */
  lemma DeletionDooms(h: History)
    requires h.world.sidekick.Some? && !h.world.sidekick.value.deleting && !h.world.sidekick.value.foreignFinalizers
    requires Held(h.world)
    ensures Doomed(Apply(h, DeleteSidekick).world)
  {
  }

  /** Clean termination from the start of life: after any run of a fresh Sidekick, whatever its policy,
      delete it at a moment when nobody else holds it; then every continuation creates no pod, counts
      no failure, and clears both finalizers with its first two reconciles. */
  lemma TerminatesCleanly(h: History, acts: seq<Action>, more: seq<Action>)
    requires Initial(h) && Legal(h, acts)
    requires var w := After(h, acts).world;
             w.sidekick.Some? && !w.sidekick.value.deleting && !w.sidekick.value.foreignFinalizers
    requires Legal(Apply(After(h, acts), DeleteSidekick), more)
    ensures var mid, end := After(h, acts), After(Apply(After(h, acts), DeleteSidekick), more);
            && end.created == mid.created
            && (end.world.sidekick.Some? ==> end.world.sidekick.value.status == mid.world.sidekick.value.status)
            && (end.world.pod.Some? ==> mid.world.pod.Some? && end.world.pod.value.uid == mid.world.pod.value.uid)
            && (Reconciles(more) >= 2 ==>
                  && end.world.sidekick.None?
                  && (end.world.pod.Some? ==> end.world.pod.value.deleting && !end.world.pod.value.finalizer))
  {
    RunHeld(h, acts);
    DeletionDooms(After(h, acts));
    CleanRun(Apply(After(h, acts), DeleteSidekick), more);
  }
}
