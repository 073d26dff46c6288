/** How large the replay cache gets over a run. */
module ReplayLimits {
  import opened Terms
  import opened Token
  import opened ReplayCache
  import opened Sets

  function AliveCalls(calls: seq<Call>): set<int> {
    set i | 0 <= i < |calls| && Alive(calls, i)
  }

  function NonceAt(calls: seq<Call>): int -> string {
    (i: int) => if 0 <= i < |calls| then calls[i].nonce else ""
  }

  lemma AliveNoncesDiffer(calls: seq<Call>, i: nat, j: nat)
    requires Monotone(calls) && i < j < |calls| && Alive(calls, i) && Alive(calls, j)
    ensures calls[i].nonce != calls[j].nonce
  {
    if calls[i].nonce == calls[j].nonce {
      BlocksUntilExpiry(calls, i, j);
    }
  }

  lemma EntriesAreAliveNonces(calls: seq<Call>)
    requires Monotone(calls)
    ensures CacheAfter(calls).Keys == Image(AliveCalls(calls), NonceAt(calls))
  {
    CacheIsLiveHistory(calls);
    forall k | k in CacheAfter(calls) ensures k in Image(AliveCalls(calls), NonceAt(calls)) {
      var i :| 0 <= i < |calls| && Alive(calls, i) && calls[i].nonce == k && calls[i].exp == CacheAfter(calls)[k];
      assert i in AliveCalls(calls) && NonceAt(calls)(i) == k;
    }
  }

  /** The size of the cache is exactly the number of accepted calls that are still alive. */
  lemma SizeIsAliveCalls(calls: seq<Call>)
    requires Monotone(calls)
    ensures |CacheAfter(calls)| == |AliveCalls(calls)|
  {
    forall i, j | i in AliveCalls(calls) && j in AliveCalls(calls) && NonceAt(calls)(i) == NonceAt(calls)(j)
      ensures i == j
    {
      if i < j {
        AliveNoncesDiffer(calls, i, j);
      } else if j < i {
        AliveNoncesDiffer(calls, j, i);
      }
    }
    InjectiveImageSize(AliveCalls(calls), NonceAt(calls));
    EntriesAreAliveNonces(calls);
    assert |CacheAfter(calls)| == |CacheAfter(calls).Keys|;
  }

  function AcceptedCalls(calls: seq<Call>): set<int> {
    set i | 0 <= i < |calls| && Accepted(calls, i)
  }

  /** Those of the given calls that read the clock at t, and after lo up to hi. */
  function At(calls: seq<Call>, indices: set<int>, t: int): set<int> {
    set i | i in indices && 0 <= i < |calls| && calls[i].now == t
  }

  function Within(calls: seq<Call>, indices: set<int>, lo: int, hi: int): set<int> {
    set i | i in indices && 0 <= i < |calls| && lo < calls[i].now <= hi
  }

  ghost predicate RateAtMost(calls: seq<Call>, indices: set<int>, rate: nat) {
    forall t :: |At(calls, indices, t)| <= rate
  }

  lemma {:induction false} WindowSize(calls: seq<Call>, indices: set<int>, hi: int, width: nat, rate: nat)
    requires RateAtMost(calls, indices, rate)
    ensures |Within(calls, indices, hi - width, hi)| <= rate * width
  {
    if width == 0 {
      assert Within(calls, indices, hi, hi) == {};
    } else {
      WindowSize(calls, indices, hi, width - 1, rate);
      var first := hi - width + 1;
      assert Within(calls, indices, hi - width, hi) == Within(calls, indices, first, hi) + At(calls, indices, first);
      UnionSize(Within(calls, indices, first, hi), At(calls, indices, first));
      TimesSuccessor(rate, width - 1);
    }
  }

  /** No accepted nonce expires later than a lifetime after acceptance. */
  predicate LivesAtMost(calls: seq<Call>, life: nat) {
    forall i | i in AcceptedCalls(calls) :: calls[i].exp <= calls[i].now + life
  }

  /** What is alive was accepted within one lifetime of the last reading. */
  lemma AliveAreRecent(calls: seq<Call>, ttl: nat)
    requires Monotone(calls) && calls != [] && 0 < ttl && LivesAtMost(calls, ttl)
    ensures AliveCalls(calls) <= Within(calls, AcceptedCalls(calls), Last(calls).now - ttl, Last(calls).now)
  {
    forall i | i in AliveCalls(calls)
      ensures i in Within(calls, AcceptedCalls(calls), Last(calls).now - ttl, Last(calls).now)
    {
      assert i in AcceptedCalls(calls) && calls[i].now <= Last(calls).now;
    }
  }

  /** Cache size bound: at most `rate` accepted nonces a second, each expiring at most `ttl` seconds
      after acceptance, never make more than rate * ttl entries. */
  lemma CacheSizeBound(calls: seq<Call>, rate: nat, ttl: nat)
    requires Monotone(calls) && RateAtMost(calls, AcceptedCalls(calls), rate) && 0 < ttl && LivesAtMost(calls, ttl)
    ensures |CacheAfter(calls)| <= rate * ttl
  {
    if calls != [] {
      SizeIsAliveCalls(calls);
      AliveAreRecent(calls, ttl);
      var hi := Last(calls).now;
      WindowSize(calls, AcceptedCalls(calls), hi, ttl, rate);
      SubsetSize(AliveCalls(calls), Within(calls, AcceptedCalls(calls), hi - ttl, hi));
    }
  }

  // ------------------------------------------------------------------ what the lifetime is for

  function NonceOf(i: nat): (k: string)
    ensures |k| == i + 1
  {
    seq(i + 1, _ => 'n')
  }

  /** The second in which call i comes, at so many calls a second. */
  function Second(i: nat, rate: nat): nat
    requires rate > 0
  {
    if i < rate then 0 else 1 + Second(i - rate, rate)
  }

  /** n calls, `rate` of them a second, every token living `life` seconds. */
  function Crowd(rate: nat, life: nat, n: nat): seq<Call>
    requires rate > 0
  {
    seq(n, i requires 0 <= i < n => Call(NonceOf(i), 1 + Second(i, rate) + life, 1 + Second(i, rate)))
  }

  lemma {:induction false} SecondOf(i: nat, rate: nat)
    requires rate > 0
    ensures Second(i, rate) * rate <= i < Second(i, rate) * rate + rate
  {
    if i >= rate {
      SecondOf(i - rate, rate);
      TimesSuccessor(rate, Second(i - rate, rate));
    }
  }

  lemma {:induction false} SecondsGrow(i: nat, j: nat, rate: nat)
    requires rate > 0 && i <= j
    ensures Second(i, rate) <= Second(j, rate)
  {
    if i >= rate {
      SecondsGrow(i - rate, j - rate, rate);
    }
  }

  lemma {:induction false} LastSecond(rate: nat, ttl: nat)
    requires rate > 0
    ensures Second(rate * ttl, rate) == ttl
  {
    if ttl > 0 {
      LastSecond(rate, ttl - 1);
      TimesSuccessor(rate, ttl - 1);
    }
  }

  lemma CrowdIsMonotone(rate: nat, life: nat, n: nat)
    requires rate > 0
    ensures Monotone(Crowd(rate, life, n))
  {
    forall i, j | 0 <= i < j < n ensures Second(i, rate) <= Second(j, rate) {
      SecondsGrow(i, j, rate);
    }
  }

  lemma {:induction false} UnusedIsNotCached(calls: seq<Call>, k: string)
    requires forall i | 0 <= i < |calls| :: calls[i].nonce != k
    ensures k !in CacheAfter(calls)
  {
    if calls != [] {
      UnusedIsNotCached(calls[..|calls| - 1], k);
    }
  }

  lemma CrowdIsAccepted(rate: nat, life: nat, n: nat, i: nat)
    requires rate > 0 && i < n
    ensures Accepted(Crowd(rate, life, n), i)
  {
    var calls := Crowd(rate, life, n);
    assert forall j | 0 <= j < i :: |calls[..i][j].nonce| == j + 1;
    UnusedIsNotCached(calls[..i], calls[i].nonce);
  }

  function Range(lo: int, hi: int): (r: set<int>)
    requires lo <= hi
    ensures forall i :: i in r <==> lo <= i < hi
    ensures |r| == hi - lo
    decreases hi - lo
  {
    if lo == hi then {} else Range(lo, hi - 1) + {hi - 1}
  }

  lemma CrowdRate(rate: nat, life: nat, n: nat, indices: set<int>)
    requires rate > 0
    ensures RateAtMost(Crowd(rate, life, n), indices, rate)
  {
    var calls := Crowd(rate, life, n);
    forall t ensures |At(calls, indices, t)| <= rate {
      var lo := (t - 1) * rate;
      forall i | i in At(calls, indices, t) ensures i in Range(lo, lo + rate) {
        SecondOf(i, rate);
        assert Second(i, rate) == t - 1;
      }
      SubsetSize(At(calls, indices, t), Range(lo, lo + rate));
    }
  }

  /** When the last call comes, nobody's token has expired. */
  lemma CrowdStaysAlive(rate: nat, life: nat, n: nat)
    requires rate > 0 && n > 0 && Second(n - 1, rate) < life
    ensures AliveCalls(Crowd(rate, life, n)) == Range(0, n)
  {
    forall i | 0 <= i < n ensures i in AliveCalls(Crowd(rate, life, n)) {
      CrowdIsAccepted(rate, life, n, i);
    }
  }

  lemma CrowdSize(rate: nat, life: nat, n: nat)
    requires rate > 0 && n > 0 && Second(n - 1, rate) < life
    ensures |CacheAfter(Crowd(rate, life, n))| == n
  {
    CrowdIsMonotone(rate, life, n);
    CrowdStaysAlive(rate, life, n);
    SizeIsAliveCalls(Crowd(rate, life, n));
  }

  /** Claims with the nonce and expiry of a call pass Verify when the cache reads the clock. */
  ghost predicate Verifiable(call: Call) {
    forall c: Claims | c.nonce == call.nonce && c.expiresAt == call.exp && c.binding != BindingText("") ::
      Verify(c, call.now, c.sidekickName, c.namespace, c.binding).Ok?
  }

  lemma CrowdIsVerifiable(rate: nat, life: nat, n: nat)
    requires rate > 0 && life > 0
    ensures forall i | 0 <= i < n :: Verifiable(Crowd(rate, life, n)[i])
    ensures LivesAtMost(Crowd(rate, life, n), life)
  {
  }

  /** The server puts no limit on the lifetime of the tokens it verifies. If they may live longer than
      ttl, a run of the given rate, of tokens that all pass Verify, has more than rate * ttl entries. */
  lemma LongTokensExceed(rate: nat, ttl: nat, life: nat) returns (calls: seq<Call>)
    requires rate > 0 && ttl < life
    ensures Monotone(calls) && RateAtMost(calls, AcceptedCalls(calls), rate) && LivesAtMost(calls, life)
    ensures |CacheAfter(calls)| == rate * ttl + 1
    ensures forall i | 0 <= i < |calls| :: Verifiable(calls[i])
  {
    var n := rate * ttl + 1;
    LastSecond(rate, ttl);
    calls := Crowd(rate, life, n);
    CrowdIsMonotone(rate, life, n);
    CrowdRate(rate, life, n, AcceptedCalls(calls));
    CrowdSize(rate, life, n);
    CrowdIsVerifiable(rate, life, n);
  }

  /** The bound holds on every run of that rate whose tokens live at most `life` seconds. */
  ghost predicate BoundHolds(rate: nat, ttl: nat, life: nat) {
    forall calls | Monotone(calls) && RateAtMost(calls, AcceptedCalls(calls), rate) && LivesAtMost(calls, life) ::
      |CacheAfter(calls)| <= rate * ttl
  }

  /** Exactly when the documented bound of rate times TTL holds: when no token lives longer than that. */
  lemma SizeBoundIff(rate: nat, ttl: nat, life: nat)
    requires rate > 0 && ttl > 0
    ensures BoundHolds(rate, ttl, life) <==> life <= ttl
  {
    if life <= ttl {
      forall calls | Monotone(calls) && RateAtMost(calls, AcceptedCalls(calls), rate) && LivesAtMost(calls, life)
        ensures |CacheAfter(calls)| <= rate * ttl
      {
        assert LivesAtMost(calls, ttl);
        CacheSizeBound(calls, rate, ttl);
      }
    } else {
      var calls := LongTokensExceed(rate, ttl, life);
    }
  }
}
