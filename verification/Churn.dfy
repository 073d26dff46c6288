/** Why convergence needs a scheduled leader: without a node, pods are created for ever. */
module Churn {
  import opened Kube
  import opened Runs
  import opened Scenarios
  import opened Convergence

  /** A run of undisturbed steps that creates nothing but the given number of pods. */
  ghost predicate CalmReach(h: History, acts: seq<Action>, e: History, leader: Candidate) {
    && h.world.sidekick.Some? && e.world.sidekick.Some? && Reaches(h, acts, e, false)
    && e.world.sidekick.value.spec == h.world.sidekick.value.spec
    && forall a | a in acts :: Calm(h.world.sidekick.value.spec, leader, a)
  }

  lemma CalmJoin(h: History, acts: seq<Action>, m: History, more: seq<Action>, e: History, leader: Candidate)
    requires CalmReach(h, acts, m, leader) && CalmReach(m, more, e, leader)
    ensures CalmReach(h, acts + more, e, leader)
  {
    Append(h, acts, m, more, e, false);
  }

  lemma CalmOne(h: History, a: Action, leader: Candidate) returns (acts: seq<Action>)
    requires h.world.sidekick.Some? && Enabled(h, a) && Calm(h.world.sidekick.value.spec, leader, a)
    requires Apply(h, a).world.sidekick.Some? && Apply(h, a).world.sidekick.value.spec == h.world.sidekick.value.spec
    ensures CalmReach(h, acts, Apply(h, a), leader)
  {
    Prepend(h, a, [], Apply(h, a), false);
    acts := [a] + [];
  }

  /** Nobody deletes the Sidekick, its leader has no node, and every uid used so far is at most n long. */
  ghost predicate Unscheduled(h: History, n: nat, leader: Candidate) {
    Steady(h.world, leader) && leader.spec.node == "" && forall u | u in h.created :: |u| <= n
  }

  /** One reconcile; it creates a pod only if there is none. */
  lemma Look(h: History, n: nat, leader: Candidate) returns (acts: seq<Action>, e: History)
    requires Unscheduled(h, n, leader)
    ensures CalmReach(h, acts, e, leader) && Steady(e.world, leader)
    ensures Rank(h.world, leader) in {3, 4} ==> e.world.pod.Some? && e.world.pod.value.deleting
    ensures Rank(h.world, leader) == 3 ==> !e.world.pod.value.finalizer
    ensures e.created == if h.world.pod.None? then h.created + {FreshUid(n)} else h.created
  {
    assert FreshUid(n) !in h.created;
    ReconcileApproaches(h.world, leader, FreshUid(n));
    e := Apply(h, DoReconcile(FreshUid(n)));
    acts := CalmOne(h, DoReconcile(FreshUid(n)), leader);
  }

  lemma Released(h: History, n: nat, leader: Candidate) returns (acts: seq<Action>, e: History)
    requires Unscheduled(h, n, leader) && h.world.pod.Some? && h.world.pod.value.deleting
    requires !h.world.pod.value.finalizer
    ensures CalmReach(h, acts, e, leader) && Unscheduled(e, n, leader) && e.created == h.created && e.world.pod.None?
  {
    e := Apply(h, PodVanishes);
    acts := CalmOne(h, PodVanishes, leader);
  }

  lemma Terminating(h: History, n: nat, leader: Candidate) returns (acts: seq<Action>, e: History)
    requires Unscheduled(h, n, leader) && h.world.pod.Some? && h.world.pod.value.deleting
    ensures CalmReach(h, acts, e, leader) && Unscheduled(e, n, leader) && e.created == h.created && e.world.pod.None?
  {
    if h.world.pod.value.finalizer {
      var look, m := Look(h, n, leader);
      var vanish;
      vanish, e := Released(m, n, leader);
      CalmJoin(h, look, m, vanish, e, leader);
      acts := look + vanish;
    } else {
      acts, e := Released(h, n, leader);
    }
  }

  lemma Stale(h: History, n: nat, leader: Candidate) returns (acts: seq<Action>, e: History)
    requires Unscheduled(h, n, leader) && Rank(h.world, leader) == 4
    ensures CalmReach(h, acts, e, leader) && Unscheduled(e, n, leader) && e.created == h.created && e.world.pod.None?
  {
    var look, m := Look(h, n, leader);
    var rest;
    rest, e := Terminating(m, n, leader);
    CalmJoin(h, look, m, rest, e, leader);
    acts := look + rest;
  }

  /** The scheduler finds a node for a matching pod, and it matches no more. */
  lemma Matched(h: History, n: nat, leader: Candidate) returns (acts: seq<Action>, e: History)
    requires Unscheduled(h, n, leader) && Rank(h.world, leader) == 0
    ensures CalmReach(h, acts, e, leader) && Unscheduled(e, n, leader) && e.created == h.created && e.world.pod.None?
  {
    var pod := h.world.pod.value;
    var move := PodMovesOn(pod.(spec := pod.spec.(node := "worker")));
    var once := CalmOne(h, move, leader);
    var m := Apply(h, move);
    var rest;
    rest, e := Stale(m, n, leader);
    CalmJoin(h, once, m, rest, e, leader);
    acts := once + rest;
  }

  /** Whatever pod there is, it goes. */
  lemma Clear(h: History, n: nat, leader: Candidate) returns (acts: seq<Action>, e: History)
    requires Unscheduled(h, n, leader)
    ensures CalmReach(h, acts, e, leader) && Unscheduled(e, n, leader) && e.created == h.created && e.world.pod.None?
  {
    if h.world.pod.None? {
      acts, e := [], h;
    } else if h.world.pod.value.deleting {
      acts, e := Terminating(h, n, leader);
    } else if Rank(h.world, leader) == 0 {
      acts, e := Matched(h, n, leader);
    } else {
      acts, e := Stale(h, n, leader);
    }
  }

  /** Any number of pods is created. */
  lemma {:induction false} Churns(h: History, n: nat, leader: Candidate, k: nat) returns (acts: seq<Action>, e: History)
    requires Unscheduled(h, n, leader)
    ensures CalmReach(h, acts, e, leader) && |e.created| == |h.created| + k
    decreases k
  {
    if k == 0 {
      acts, e := [], h;
    } else {
      var clear, m := Clear(h, n, leader);
      var create, m' := Look(m, n, leader);
      assert FreshUid(n) !in m.created;
      var rest;
      rest, e := Churns(m', n + 1, leader, k - 1);
      CalmJoin(h, clear, m, create, m', leader);
      CalmJoin(h, clear + create, m', rest, e, leader);
      acts := clear + create + rest;
    }
  }

  lemma {:induction false} Longest(s: set<Uid>) returns (n: nat)
    ensures forall u | u in s :: |u| <= n
  {
    if s == {} {
      n := 0;
    } else {
      var u :| u in s;
      n := Longest(s - {u});
      n := if |u| > n then |u| else n;
    }
  }

  /** Undisturbed runs of a Sidekick that is not being deleted, from any state, create at most one pod if
      and only if the leader has a node; if it has none, they create any number. */
  lemma ConvergesIff(h: History, leader: Candidate)
    requires Steady(h.world, leader)
    ensures (forall acts | Legal(h, acts) && (forall a | a in acts :: Calm(h.world.sidekick.value.spec, leader, a)) ::
               |After(h, acts).created| <= |h.created| + 1)
            <==> leader.spec.node != ""
  {
    if leader.spec.node != "" {
      forall acts | Legal(h, acts) && (forall a | a in acts :: Calm(h.world.sidekick.value.spec, leader, a))
        ensures |After(h, acts).created| <= |h.created| + 1
      {
        CalmRunsConverge(h, acts, leader);
      }
    } else {
      var n := Longest(h.created);
      var acts, e := Churns(h, n, leader, 2);
      ReachesLegal(h, acts, e, false);
    }
  }
}
