/**
 The replay cache: nonces with their expiry, pruned on every call. Calls are serialised by a mutex,
 so a run is a sequence of calls whose clock readings do not decrease, whatever requests they
 belong to.
 */
module ReplayCache {

  type Seen = map<string, int>

  /** What pruning at a time leaves. */
  function Prune(seen: Seen, now: int): Seen {
    map k | k in seen && seen[k] > now :: seen[k]
  }

  function Accepts(seen: Seen, nonce: string, now: int): bool {
    nonce !in Prune(seen, now)
  }

  function AfterAccept(seen: Seen, nonce: string, exp: int, now: int): Seen {
    if Accepts(seen, nonce, now) then Prune(seen, now)[nonce := exp] else Prune(seen, now)
  }

  class Cache {
    var seen: Seen

    constructor ()
      ensures seen == map[]
    {
      seen := map[];
    }

    /** accept: prune, then look up, then record. `now` is the clock reading inside the call. */
    method Accept(nonce: string, exp: int, now: int) returns (ok: bool)
      modifies this
      ensures ok == Accepts(old(seen), nonce, now)
      ensures seen == AfterAccept(old(seen), nonce, exp, now)
    {
      var todo := seen.Keys;
      while todo != {}
        invariant todo <= seen.Keys <= old(seen).Keys
        invariant forall k | k in seen :: seen[k] == old(seen)[k] && (k !in todo ==> seen[k] > now)
        invariant forall k | k in old(seen) && old(seen)[k] > now :: k in seen
        decreases todo
      {
        var k :| k in todo;
        if seen[k] <= now {
          seen := seen - {k};
        }
        todo := todo - {k};
      }
      assert seen == Prune(old(seen), now);
      if nonce in seen {
        return false;
      }
      seen := seen[nonce := exp];
      return true;
    }
  }

  // ------------------------------------------------------------------ runs

  datatype Call = Call(nonce: string, exp: int, now: int)

  function Last(calls: seq<Call>): Call
    requires calls != []
  {
    calls[|calls| - 1]
  }

  /** The cache after a run from empty. */
  function CacheAfter(calls: seq<Call>): Seen {
    if calls == [] then map[]
    else AfterAccept(CacheAfter(calls[..|calls| - 1]), Last(calls).nonce, Last(calls).exp, Last(calls).now)
  }

  /** Whether call i of the run was accepted. */
  predicate Accepted(calls: seq<Call>, i: nat)
    requires i < |calls|
  {
    Accepts(CacheAfter(calls[..i]), calls[i].nonce, calls[i].now)
  }

  predicate Monotone(calls: seq<Call>) {
    forall i, j | 0 <= i < j < |calls| :: calls[i].now <= calls[j].now
  }

  lemma AcceptedPrefix(calls: seq<Call>, n: nat, i: nat)
    requires i < n <= |calls|
    ensures Accepted(calls[..n], i) == Accepted(calls, i)
  {
    assert calls[..n][..i] == calls[..i];
  }

  /** Call i is still in the cache at the end: accepted, and not expired at the last reading unless
      it is the last call itself. */
  predicate Alive(calls: seq<Call>, i: nat)
    requires i < |calls|
  {
    Accepted(calls, i) && (calls[i].exp > Last(calls).now || i == |calls| - 1)
  }

  predicate Holds(calls: seq<Call>, k: string, e: int) {
    exists i | 0 <= i < |calls| :: Alive(calls, i) && calls[i].nonce == k && calls[i].exp == e
  }

  /** Being alive after one more call. */
  lemma AliveStep(calls: seq<Call>, i: nat)
    requires Monotone(calls) && i < |calls| - 1
    ensures var before := calls[..|calls| - 1];
            Alive(calls, i) <==> Alive(before, i) && before[i].exp > Last(calls).now
  {
    AcceptedPrefix(calls, |calls| - 1, i);
  }

  lemma {:induction false} AliveAreEntries(calls: seq<Call>, i: nat)
    requires Monotone(calls) && i < |calls| && Alive(calls, i)
    ensures calls[i].nonce in CacheAfter(calls) && CacheAfter(calls)[calls[i].nonce] == calls[i].exp
  {
    var n := |calls| - 1;
    if i < n {
      AliveStep(calls, i);
      AliveAreEntries(calls[..n], i);
    }
  }

  lemma {:induction false} EntriesAreAlive(calls: seq<Call>, k: string)
    requires Monotone(calls) && k in CacheAfter(calls)
    ensures Holds(calls, k, CacheAfter(calls)[k])
  {
    var n := |calls| - 1;
    var before := calls[..n];
    if Accepted(calls, n) && k == calls[n].nonce {
      assert Alive(calls, n);
    } else {
      var prior := CacheAfter(before);
      assert k in prior && prior[k] == CacheAfter(calls)[k] > calls[n].now;
      EntriesAreAlive(before, k);
      var i :| 0 <= i < n && Alive(before, i) && before[i].nonce == k && before[i].exp == prior[k];
      AliveStep(calls, i);
    }
  }

  /** The cache holds exactly the accepted calls that are still alive. */
  lemma CacheIsLiveHistory(calls: seq<Call>)
    requires Monotone(calls)
    ensures forall k | k in CacheAfter(calls) :: Holds(calls, k, CacheAfter(calls)[k])
    ensures forall i | 0 <= i < |calls| && Alive(calls, i) ::
              calls[i].nonce in CacheAfter(calls) && CacheAfter(calls)[calls[i].nonce] == calls[i].exp
  {
    forall k | k in CacheAfter(calls) {
      EntriesAreAlive(calls, k);
    }
    forall i | 0 <= i < |calls| && Alive(calls, i) {
      AliveAreEntries(calls, i);
    }
  }

  /** A nonce accepted before blocks every call that reads the clock before that entry's expiry. */
  lemma BlocksUntilExpiry(calls: seq<Call>, i: nat, j: nat)
    requires Monotone(calls) && i < j < |calls| && Accepted(calls, i)
    requires calls[i].nonce == calls[j].nonce && calls[j].now < calls[i].exp
    ensures !Accepted(calls, j)
  {
    var before := calls[..j];
    AcceptedPrefix(calls, j, i);
    CacheIsLiveHistory(before);
    assert Last(before).now <= calls[j].now;
    assert Alive(before, i);
  }

  /** Every call reads the clock before the expiry of its token. */
  predicate InTime(calls: seq<Call>) {
    forall i | 0 <= i < |calls| :: calls[i].now < calls[i].exp
  }

  /** Replay safety: no (nonce, expiry) pair is accepted twice, in any interleaving. */
  lemma NoReplay(calls: seq<Call>, i: nat, j: nat)
    requires Monotone(calls) && InTime(calls) && i < j < |calls|
    requires calls[i].nonce == calls[j].nonce && calls[i].exp == calls[j].exp
    ensures !(Accepted(calls, i) && Accepted(calls, j))
  {
    if Accepted(calls, i) {
      BlocksUntilExpiry(calls, i, j);
    }
  }

  /** Each nonce always comes with the same expiry. */
  predicate Consistent(calls: seq<Call>) {
    forall i, j | 0 <= i < |calls| && 0 <= j < |calls| && calls[i].nonce == calls[j].nonce ::
      calls[i].exp == calls[j].exp
  }

  predicate SeenBefore(calls: seq<Call>, j: nat)
    requires j < |calls|
  {
    exists i | 0 <= i < j :: Accepted(calls, i) && calls[i].nonce == calls[j].nonce
  }

  lemma RejectedWasSeen(calls: seq<Call>, j: nat)
    requires Monotone(calls) && Consistent(calls) && j < |calls| && !Accepted(calls, j)
    ensures SeenBefore(calls, j) && calls[j].now < calls[j].exp
  {
    var before, k := calls[..j], calls[j].nonce;
    EntriesAreAlive(before, k);
    var i :| 0 <= i < j && Alive(before, i) && before[i].nonce == k && before[i].exp == CacheAfter(before)[k];
    AcceptedPrefix(calls, j, i);
  }

  /** When the pruned cache agrees with the unbounded history of used nonces: a call is accepted
      exactly when its nonce was never accepted before, or it reads the clock no earlier than its
      own token's expiry. */
  lemma AcceptedIff(calls: seq<Call>, j: nat)
    requires Monotone(calls) && Consistent(calls) && j < |calls|
    ensures Accepted(calls, j) <==> !SeenBefore(calls, j) || calls[j].now >= calls[j].exp
  {
    if SeenBefore(calls, j) && calls[j].now < calls[j].exp {
      var i :| 0 <= i < j && Accepted(calls, i) && calls[i].nonce == calls[j].nonce;
      BlocksUntilExpiry(calls, i, j);
    }
    if !Accepted(calls, j) {
      RejectedWasSeen(calls, j);
    }
  }

  /** Nonce k was accepted by one of the calls up to j and has not expired at call j. */
  predicate Unexpired(calls: seq<Call>, j: nat, k: string)
    requires j < |calls|
  {
    exists i | 0 <= i <= j :: Accepted(calls, i) && calls[i].nonce == k && calls[i].exp > calls[j].now
  }

  /** The cache refines the history: accepts precede expiry, so acceptance means first use, and
      the cache is the history cut down to what has not expired. */
  lemma RefinesHistory(calls: seq<Call>, j: nat)
    requires Monotone(calls) && Consistent(calls) && InTime(calls) && j < |calls|
    ensures Accepted(calls, j) <==> !SeenBefore(calls, j)
    ensures forall k :: k in CacheAfter(calls[..j + 1]) <==> Unexpired(calls, j, k)
  {
    AcceptedIff(calls, j);
    var upto := calls[..j + 1];
    CacheIsLiveHistory(upto);
    forall i | 0 <= i <= j ensures Alive(upto, i) <==> Accepted(calls, i) && calls[i].exp > calls[j].now {
      AcceptedPrefix(calls, j + 1, i);
    }
  }
}
