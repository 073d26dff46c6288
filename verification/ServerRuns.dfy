/** Whole runs of the command server. */
module ServerRuns {
  import opened Kube
  import opened Terms
  import opened ReplayCache
  import opened LogHistory
  import opened Server
  import opened Sums

  /** A request, or a change that others make to the Secrets or the Snapshots. */
  datatype Event = Handle(request: Request) | Rekey(secrets: Secrets) | Replace(snapshots: Snapshots)

  function Step(s: State, e: Event): State {
    match e
    case Handle(q) => Execute(s, q).0
    case Rekey(secrets) => s.(secrets := secrets)
    case Replace(snapshots) => s.(snapshots := snapshots)
  }

  function After(s: State, run: seq<Event>): State
    decreases |run|
  {
    if run == [] then s else After(Step(s, run[0]), run[1..])
  }

  /** The response to a request, as a list; other events have none. */
  function Reply(s: State, e: Event): seq<Response> {
    if e.Handle? then [Execute(s, e.request).1] else []
  }

  predicate Rejected(s: State, e: Event) {
    Reply(s, e) == [Unauthenticated]
  }

  function ClockAfter(t: int, e: Event): int {
    if e.Handle? then e.request.acceptedAt else t
  }

  /** The clock of the replay cache is at least t and never goes back. */
  predicate ClockFrom(t: int, run: seq<Event>)
    decreases |run|
  {
    run == [] || (t <= ClockAfter(t, run[0]) && ClockFrom(ClockAfter(t, run[0]), run[1..]))
  }

  // ------------------------------------------------- rejected requests do not interfere

  /** All responses of a run, in order. */
  function Responses(s: State, run: seq<Event>): seq<Response>
    decreases |run|
  {
    if run == [] then []
    else Reply(s, run[0]) + Responses(Step(s, run[0]), run[1..])
  }

  /** The responses of a run to the requests it does not reject. */
  function Answered(s: State, run: seq<Event>): seq<Response>
    decreases |run|
  {
    if run == [] then []
    else (if Rejected(s, run[0]) then [] else Reply(s, run[0])) + Answered(Step(s, run[0]), run[1..])
  }

  /** The run without the requests it rejects. */
  function WithoutRejected(s: State, run: seq<Event>): seq<Event>
    decreases |run|
  {
    if run == [] then []
    else (if Rejected(s, run[0]) then [] else [run[0]]) + WithoutRejected(Step(s, run[0]), run[1..])
  }

  /** From time t on no request can tell the two states apart. */
  predicate Alike(a: State, b: State, t: int) {
    a.secrets == b.secrets && a.snapshots == b.snapshots && Prune(a.seen, t) == Prune(b.seen, t)
  }

  lemma PruneTwice(seen: Seen, t: int, now: int)
    requires t <= now
    ensures Prune(Prune(seen, t), now) == Prune(seen, now)
  {
  }

  lemma AlikeAnswer(a: State, b: State, t: int, q: Request)
    requires Alike(a, b, t) && t <= q.acceptedAt
    ensures Execute(a, q).1 == Execute(b, q).1
    ensures Alike(Execute(a, q).0, Execute(b, q).0, q.acceptedAt)
  {
    PruneTwice(a.seen, t, q.acceptedAt);
    PruneTwice(b.seen, t, q.acceptedAt);
  }

  /** A rejected request, even a replay that prunes the cache, changes nothing anyone can see. */
  lemma RejectedIsSilent(a: State, b: State, t: int, q: Request)
    requires Alike(a, b, t) && t <= q.acceptedAt && Execute(a, q).1 == Unauthenticated
    ensures Alike(Execute(a, q).0, b, q.acceptedAt)
  {
    PruneTwice(a.seen, t, q.acceptedAt);
    PruneTwice(b.seen, t, q.acceptedAt);
    PruneTwice(a.seen, q.acceptedAt, q.acceptedAt);
  }

  lemma AlikeStep(a: State, b: State, t: int, e: Event)
    requires Alike(a, b, t) && t <= ClockAfter(t, e)
    ensures Rejected(a, e) ==> Alike(Step(a, e), b, ClockAfter(t, e))
    ensures Reply(a, e) == Reply(b, e) && Alike(Step(a, e), Step(b, e), ClockAfter(t, e))
  {
    if e.Handle? {
      AlikeAnswer(a, b, t, e.request);
      if Rejected(a, e) {
        RejectedIsSilent(a, b, t, e.request);
      }
    }
  }

  lemma OneMore(s: State, e: Event, rest: seq<Event>)
    ensures Responses(s, [e] + rest) == Reply(s, e) + Responses(Step(s, e), rest)
    ensures After(s, [e] + rest) == After(Step(s, e), rest)
  {
    assert ([e] + rest)[1..] == rest;
  }

  lemma {:induction false} AlikeRuns(a: State, b: State, t: int, run: seq<Event>)
    requires Alike(a, b, t) && ClockFrom(t, run)
    ensures Responses(b, WithoutRejected(a, run)) == Answered(a, run)
    ensures var (x, y) := (After(a, run), After(b, WithoutRejected(a, run)));
            x.secrets == y.secrets && x.snapshots == y.snapshots
    decreases |run|
  {
    if run != [] {
      var e, next, later := run[0], Step(a, run[0]), ClockAfter(t, run[0]);
      AlikeStep(a, b, t, e);
      if Rejected(a, e) {
        AlikeRuns(next, b, later, run[1..]);
        assert WithoutRejected(a, run) == WithoutRejected(next, run[1..]);
      } else {
        AlikeRuns(next, Step(b, e), later, run[1..]);
        OneMore(b, e, WithoutRejected(next, run[1..]));
      }
    }
  }

  /** Rejected requests do not interfere: taking them all out of a run, replays that trigger
      pruning included, leaves every other response and the resulting Snapshots as they were, and
      nothing in the remaining run is rejected. */
  lemma RejectedDoNotInterfere(s: State, t: int, run: seq<Event>)
    requires ClockFrom(t, run)
    ensures Responses(s, WithoutRejected(s, run)) == Answered(s, run)
    ensures Unauthenticated !in Responses(s, WithoutRejected(s, run))
    ensures After(s, WithoutRejected(s, run)).snapshots == After(s, run).snapshots
  {
    AlikeRuns(s, s, t, run);
    AnsweredAreAuthenticated(s, run);
  }

  lemma {:induction false} AnsweredAreAuthenticated(s: State, run: seq<Event>)
    ensures Unauthenticated !in Answered(s, run)
    decreases |run|
  {
    if run != [] {
      AnsweredAreAuthenticated(Step(s, run[0]), run[1..]);
    }
  }

  // ------------------------------------------------- one log entry per token

  datatype Ticket = Ticket(nonce: string, exp: int)

  function TicketOf(c: Claims): Ticket { Ticket(c.nonce, c.expiresAt) }

  /** How many updates a Snapshot has counted. */
  function Entries(s: Snapshot): int { StatsOf(s).succeeded + StatsOf(s).failed }

  function EntriesIn(m: Snapshots): SnapshotId -> int {
    (id: SnapshotId) => if id in m then Entries(m[id]) else 0
  }

  ghost function LogTotal(m: Snapshots): int {
    SumOver(m.Keys, EntriesIn(m))
  }

  lemma UpdateAddsOne(m: Snapshots, id: SnapshotId, info: LogInfo)
    requires id in m
    ensures LogTotal(UpdatedSnapshots(m, id, info)) == LogTotal(m) + 1
  {
    var m' := UpdatedSnapshots(m, id, info);
    assert m'.Keys == m.Keys;
    SumOverTake(m.Keys, EntriesIn(m), id);
    SumOverTake(m.Keys, EntriesIn(m'), id);
    SumOverAgree(m.Keys - {id}, EntriesIn(m), EntriesIn(m'));
    assert Entries(UpdatedSnapshot(m[id], info)) == Entries(m[id]) + 1;
  }

  /** A request reaches the cache before its token expires, and only requests write Snapshots. */
  predicate EventInTime(s: State, e: Event) {
    match e
    case Handle(q) => ClaimsOf(s.secrets, q).Some? ==> q.acceptedAt < ClaimsOf(s.secrets, q).value.expiresAt
    case Rekey(_) => true
    case Replace(_) => false
  }

  predicate InTime(s: State, run: seq<Event>)
    decreases |run|
  {
    run == [] || (EventInTime(s, run[0]) && InTime(Step(s, run[0]), run[1..]))
  }

  /** The token whose nonce an event uses up. */
  function Spent(s: State, e: Event): set<Ticket> {
    if e.Handle? && ClaimsOf(s.secrets, e.request).Some? && !Rejected(s, e)
    then {TicketOf(ClaimsOf(s.secrets, e.request).value)} else {}
  }

  /** The token whose update an event carries out. */
  function LoggedBy(s: State, e: Event): (r: set<Ticket>)
    ensures r <= Spent(s, e)
  {
    if e.Handle? && e.request.command == UpdateCommand && Reply(s, e) == [Success] then Spent(s, e) else {}
  }

  function Logged(s: State, run: seq<Event>): set<Ticket>
    decreases |run|
  {
    if run == [] then {} else LoggedBy(s, run[0]) + Logged(Step(s, run[0]), run[1..])
  }

  /** The cache still holds every used ticket that has not expired. */
  predicate Covers(seen: Seen, used: set<Ticket>, t: int) {
    forall k | k in used && k.exp > t :: k.nonce in seen && seen[k.nonce] == k.exp
  }

  /** What an event spends was not used before, and is covered from then on. */
  lemma SpentIsNew(s: State, t: int, used: set<Ticket>, e: Event)
    requires Covers(s.seen, used, t) && t <= ClockAfter(t, e) && EventInTime(s, e)
    ensures Spent(s, e) !! used
    ensures Covers(Step(s, e).seen, used + Spent(s, e), ClockAfter(t, e))
  {
  }

  lemma EventTotals(s: State, e: Event)
    requires !e.Replace?
    ensures LogTotal(Step(s, e).snapshots) == LogTotal(s.snapshots) + |LoggedBy(s, e)|
  {
    if LoggedBy(s, e) != {} {
      var q := e.request;
      UpdateAddsOne(s.snapshots, TargetOf(ClaimsOf(s.secrets, q).value, q), q.body.value.info);
    }
  }

  lemma {:induction false} LoggedOnce(s: State, t: int, used: set<Ticket>, run: seq<Event>)
    requires ClockFrom(t, run) && InTime(s, run) && Covers(s.seen, used, t)
    ensures Logged(s, run) !! used
    ensures LogTotal(After(s, run).snapshots) == LogTotal(s.snapshots) + |Logged(s, run)|
    decreases |run|
  {
    if run != [] {
      var e, rest := run[0], Logged(Step(s, run[0]), run[1..]);
      SpentIsNew(s, t, used, e);
      EventTotals(s, e);
      LoggedOnce(Step(s, e), ClockAfter(t, e), used + Spent(s, e), run[1..]);
      assert |LoggedBy(s, e) + rest| == |LoggedBy(s, e)| + |rest|;
    }
  }

  /** At most one log entry per token: over a run the totals of all Snapshots together grow by exactly
      the number of distinct tokens whose update was carried out. */
  lemma OneEntryPerToken(s: State, t: int, run: seq<Event>)
    requires ClockFrom(t, run) && InTime(s, run)
    ensures LogTotal(After(s, run).snapshots) == LogTotal(s.snapshots) + |Logged(s, run)|
  {
    LoggedOnce(s, t, {}, run);
  }

  // ------------------------------------------------- replay after expiry

  /** What the hypothesis is for: of two requests with one token, the second is let through again if
      and only if it reaches the cache no earlier than the token's expiry. */
  lemma ReplayedIff(s: State, q: Request, again: Request)
    requires ClaimsOf(s.secrets, q).Some? && ClaimsOf(s.secrets, again) == ClaimsOf(s.secrets, q)
    requires Execute(s, q).1 != Unauthenticated && q.acceptedAt <= again.acceptedAt
    ensures Execute(Execute(s, q).0, again).1 != Unauthenticated
            <==> again.acceptedAt >= ClaimsOf(s.secrets, q).value.expiresAt
  {
  }

  function SignedRequest(c: Claims, info: LogInfo, keys: Keys, iv: string, verifiedAt: int, acceptedAt: int): Request {
    Request(UpdateCommand,
            Some(Envelope(c.sidekickName, c.namespace, info, Sealed(keys.signing, Random(iv), PlainClaims(c)),
                          Sealed(keys.snapshot, Derived(keys.snapshot, Raw(c.snapshotName)),
                            PlainText(Raw(c.snapshotName))))),
            verifiedAt, acceptedAt)
  }

  /** One token, verified before its expiry and reaching the cache after it, logs twice. */
  lemma LateTokenLogsTwice(s: State, c: Claims, info: LogInfo, keys: Keys, iv: string, verifiedAt: int, acceptedAt: int)
    requires KeysOf(s.secrets, c.namespace, c.sidekickName) == Some(keys)
    requires c.snapshotName != "" && c.nonce != "" && c.expiresAt != 0
    requires c.binding == BindingOf(c.sidekickName, c.namespace, info)
    requires SnapshotId(c.namespace, c.snapshotName) in s.snapshots && c.nonce !in s.seen
    requires verifiedAt < c.expiresAt <= acceptedAt
    ensures var q := SignedRequest(c, info, keys, iv, verifiedAt, acceptedAt);
            var run := [Handle(q), Handle(q)];
            && ClockFrom(acceptedAt, run) && Responses(s, run) == [Success, Success]
            && LogTotal(After(s, run).snapshots) == LogTotal(s.snapshots) + 2
  {
    var q := SignedRequest(c, info, keys, iv, verifiedAt, acceptedAt);
    var next := Step(s, Handle(q));
    LateTokenAccepted(s, c, info, keys, iv, verifiedAt, acceptedAt);
    LateTokenAccepted(next, c, info, keys, iv, verifiedAt, acceptedAt);
    OneMore(s, Handle(q), [Handle(q)]);
    OneMore(next, Handle(q), []);
    assert [Handle(q)] + [Handle(q)] == [Handle(q), Handle(q)] && [Handle(q)] + [] == [Handle(q)];
    assert [Handle(q), Handle(q)][1..] == [Handle(q)] && [Handle(q)][1..] == [];
  }

  /** After its expiry a token that the cache has not seen, or has seen expire, is accepted. */
  lemma LateTokenAccepted(s: State, c: Claims, info: LogInfo, keys: Keys, iv: string, verifiedAt: int, acceptedAt: int)
    requires KeysOf(s.secrets, c.namespace, c.sidekickName) == Some(keys)
    requires c.snapshotName != "" && c.nonce != "" && c.expiresAt != 0
    requires c.binding == BindingOf(c.sidekickName, c.namespace, info)
    requires SnapshotId(c.namespace, c.snapshotName) in s.snapshots
    requires c.nonce !in s.seen || s.seen[c.nonce] == c.expiresAt
    requires verifiedAt < c.expiresAt <= acceptedAt
    ensures var q := SignedRequest(c, info, keys, iv, verifiedAt, acceptedAt);
            var next := Step(s, Handle(q));
            && Reply(s, Handle(q)) == [Success]
            && LogTotal(next.snapshots) == LogTotal(s.snapshots) + 1
            && next.secrets == s.secrets && next.snapshots.Keys == s.snapshots.Keys
            && c.nonce in next.seen && next.seen[c.nonce] == c.expiresAt
  {
    var q := SignedRequest(c, info, keys, iv, verifiedAt, acceptedAt);
    assert Genuine(s.secrets, q.body.value, verifiedAt, c);
    assert ClaimsOf(s.secrets, q) == Some(c);
    UpdateAddsOne(s.snapshots, TargetOf(c, q), info);
  }

  // ------------------------------------------------- the history of one Snapshot

  /** What an event adds to the history of one Snapshot. */
  function UpdateBy(s: State, e: Event, id: SnapshotId): seq<LogInfo> {
    if LoggedBy(s, e) != {} && TargetOf(ClaimsOf(s.secrets, e.request).value, e.request) == id
    then [e.request.body.value.info] else []
  }

  /** The updates of one Snapshot that a run carries out, in order. */
  function UpdatesOf(s: State, run: seq<Event>, id: SnapshotId): seq<LogInfo>
    decreases |run|
  {
    if run == [] then [] else UpdateBy(s, run[0], id) + UpdatesOf(Step(s, run[0]), run[1..], id)
  }

  predicate NoReplace(run: seq<Event>) {
    forall e | e in run :: !e.Replace?
  }

  lemma EventStats(s: State, e: Event, id: SnapshotId)
    requires !e.Replace? && id in s.snapshots
    ensures id in Step(s, e).snapshots
    ensures StatsOf(Step(s, e).snapshots[id]) ==
            if UpdateBy(s, e, id) == [] then StatsOf(s.snapshots[id])
            else UpdateStats(StatsOf(s.snapshots[id]), UpdateBy(s, e, id)[0])
  {
  }

  /** Statistics with some more updates, first to last. */
  function Continued(st: LogStats, infos: seq<LogInfo>): LogStats
    decreases |infos|
  {
    if infos == [] then st else Continued(UpdateStats(st, infos[0]), infos[1..])
  }

  lemma ContinuedByOne(st: LogStats, one: seq<LogInfo>, rest: seq<LogInfo>)
    requires |one| <= 1
    ensures Continued(st, one + rest) == Continued(if one == [] then st else UpdateStats(st, one[0]), rest)
  {
    if one == [] {
      assert one + rest == rest;
    } else {
      assert (one + rest)[1..] == rest;
    }
  }

  lemma {:induction false} ContinuedLast(st: LogStats, infos: seq<LogInfo>, info: LogInfo)
    ensures Continued(st, infos + [info]) == UpdateStats(Continued(st, infos), info)
    decreases |infos|
  {
    if infos == [] {
      assert (infos + [info])[1..] == [];
    } else {
      assert (infos + [info])[1..] == infos[1..] + [info];
      ContinuedLast(UpdateStats(st, infos[0]), infos[1..], info);
    }
  }

  lemma {:induction false} ContinuedFromNone(infos: seq<LogInfo>)
    ensures Continued(NO_STATS, infos) == StatsAfter(infos)
    decreases |infos|
  {
    if infos != [] {
      var n := |infos| - 1;
      ContinuedFromNone(infos[..n]);
      ContinuedLast(NO_STATS, infos[..n], infos[n]);
      assert infos[..n] + [infos[n]] == infos;
    }
  }

  /** A Snapshot ends a run of the server with its statistics continued by exactly the updates that the
      run carried out on it. */
  lemma {:induction false} SnapshotFollowsUpdates(s: State, run: seq<Event>, id: SnapshotId)
    requires NoReplace(run) && id in s.snapshots
    ensures id in After(s, run).snapshots
    ensures StatsOf(After(s, run).snapshots[id]) == Continued(StatsOf(s.snapshots[id]), UpdatesOf(s, run, id))
    decreases |run|
  {
    if run != [] {
      EventStats(s, run[0], id);
      SnapshotFollowsUpdates(Step(s, run[0]), run[1..], id);
      ContinuedByOne(StatsOf(s.snapshots[id]), UpdateBy(s, run[0], id), UpdatesOf(Step(s, run[0]), run[1..], id));
    }
  }

  /** So the window theorems hold for every Snapshot that starts without statistics: each of its two
      histories is the latest of the events of its outcome that the run carried out on it. */
  lemma ServerHistoryIsWindow(s: State, run: seq<Event>, id: SnapshotId, ok: bool)
    requires NoReplace(run) && id in s.snapshots && StatsOf(s.snapshots[id]) == NO_STATS
    ensures id in After(s, run).snapshots
    ensures var st := StatsOf(After(s, run).snapshots[id]);
            var updates := UpdatesOf(s, run, id);
            && IsSuffix(History(st, ok), Events(updates, ok))
            && |History(st, ok)| <= LargestLimit(updates, ok) <= MAX_LOG_LIMIT
            && st.succeeded + st.failed == |updates|
  {
    var updates := UpdatesOf(s, run, id);
    SnapshotFollowsUpdates(s, run, id);
    ContinuedFromNone(updates);
    HistoryIsWindow(updates, ok);
    TotalsCountUpdates(updates);
  }
}
