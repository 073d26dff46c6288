/**
 The command server: it authenticates a request against the keys of its Sidekick, burns the token's
 nonce, and runs the command. The clock readings of a request (one in Verify, one inside the
 replay cache) are part of it.
 */
module Server {
  import opened Kube
  import opened Terms
  import opened Token
  import opened ReplayCache
  import opened LogHistory

  datatype SidekickId = SidekickId(namespace: string, name: string)

  /** The two data entries of a Sidekick's Secret; an absent entry is empty. */
  datatype Keys = Keys(signing: string, snapshot: string)

  type Secrets = map<SidekickId, Keys>

  datatype Envelope = Envelope(sidekick: string, namespace: string, info: LogInfo, token: Blob, grant: Blob)

  datatype Command = UpdateCommand | GetCommand | OtherCommand(name: string)

  /** A request; a body that is no envelope is None. */
  datatype Request = Request(command: Command, body: Option<Envelope>, verifiedAt: int, acceptedAt: int)

  datatype Response = Unauthenticated | Success | Output(snapshot: Snapshot) | NotFound | UnknownCommand(name: string)

  datatype State = State(secrets: Secrets, snapshots: Snapshots, seen: Seen)

  /** grpcKeys. */
  function KeysOf(secrets: Secrets, namespace: string, sidekick: string): Option<Keys> {
    var id := SidekickId(namespace, sidekick);
    if id !in secrets || secrets[id].signing == "" || secrets[id].snapshot == "" then None else Some(secrets[id])
  }

  /** A request is genuine: token and grant are sealed under the two keys of the Sidekick it names, the
      token's claims are unexpired and bound to exactly this request, and the grant names the Snapshot
      they claim. */
  predicate Genuine(secrets: Secrets, e: Envelope, now: int, c: Claims) {
    var id := SidekickId(e.namespace, e.sidekick);
    && id in secrets && secrets[id].signing != "" && secrets[id].snapshot != ""
    && e.token.Sealed? && e.token.key == secrets[id].signing && e.token.plain == PlainClaims(c)
    && c.expiresAt != 0 && now < c.expiresAt && c.nonce != ""
    && c.sidekickName == e.sidekick && c.namespace == e.namespace
    && c.binding == BindingOf(e.sidekick, e.namespace, e.info)
    && e.grant.Sealed? && e.grant.key == secrets[id].snapshot && e.grant.plain == PlainText(Raw(c.snapshotName))
    && c.snapshotName != ""
  }

  /** Everything authenticate checks before the replay cache. */
  function Credentials(secrets: Secrets, e: Envelope, now: int): (r: Option<Claims>)
    ensures r.Some? ==> Genuine(secrets, e, now, r.value)
    ensures forall c :: Genuine(secrets, e, now, c) ==> r == Some(c)
  {
    match KeysOf(secrets, e.namespace, e.sidekick)
    case None => None
    case Some(keys) =>
      match Open(keys.signing, e.token)
      case Err(_) => None
      case Ok(c) =>
        if Verify(c, now, e.sidekick, e.namespace, BindingOf(e.sidekick, e.namespace, e.info)).Err? then None
        else
          match DecryptString(keys.snapshot, e.grant)
          case Err(_) => None
          case Ok(granted) => if granted == Raw("") || granted != Raw(c.snapshotName) then None else Some(c)
  }

  /** The claims of a request that reaches the replay cache. */
  function ClaimsOf(secrets: Secrets, q: Request): Option<Claims> {
    if q.body.None? then None else Credentials(secrets, q.body.value, q.verifiedAt)
  }

  function TargetOf(c: Claims, q: Request): SnapshotId
    requires q.body.Some?
  {
    SnapshotId(q.body.value.namespace, c.snapshotName)
  }

  /** Dispatch of an authenticated request. */
  function Dispatch(m: Snapshots, c: Claims, q: Request): (r: (Snapshots, Response))
    requires q.body.Some?
    ensures r.1 != Unauthenticated
  {
    var id := TargetOf(c, q);
    match q.command
    case UpdateCommand =>
      if id in m then (UpdatedSnapshots(m, id, q.body.value.info), Success) else (m, NotFound)
    case GetCommand => (m, if id in m then Output(m[id]) else NotFound)
    case OtherCommand(name) => (m, UnknownCommand(name))
  }

  /** ExecuteCommand. */
  function Execute(s: State, q: Request): (r: (State, Response)) {
    match ClaimsOf(s.secrets, q)
    case None => (s, Unauthenticated)
    case Some(c) =>
      var burned := s.(seen := AfterAccept(s.seen, c.nonce, c.expiresAt, q.acceptedAt));
      if !Accepts(s.seen, c.nonce, q.acceptedAt) then (burned, Unauthenticated)
      else
        var (m, response) := Dispatch(s.snapshots, c, q);
        (burned.(snapshots := m), response)
  }

  /** What an authenticated request gets and changes: only an update writes, and only the Snapshot that the
      claims name in the request's namespace; every command burns the nonce until the token's expiry. */
  lemma ExecuteMeaning(s: State, q: Request, c: Claims)
    requires q.body.Some? && Genuine(s.secrets, q.body.value, q.verifiedAt, c)
    ensures var (s', response) := Execute(s, q);
            var id := SnapshotId(q.body.value.namespace, c.snapshotName);
            var replayed := c.nonce in s.seen && s.seen[c.nonce] > q.acceptedAt;
            && s'.secrets == s.secrets
            && (response == Unauthenticated <==> replayed)
            && (forall k | k != c.nonce ::
                  (k in s'.seen <==> k in s.seen && s.seen[k] > q.acceptedAt)
                    && (k in s'.seen ==> s'.seen[k] == s.seen[k]))
            && (!replayed ==> c.nonce in s'.seen && s'.seen[c.nonce] == c.expiresAt)
            && (replayed ==> c.nonce in s'.seen && s'.seen[c.nonce] == s.seen[c.nonce])
            && (!replayed && q.command == GetCommand ==>
                  response == if id in s.snapshots then Output(s.snapshots[id]) else NotFound)
            && (!replayed && q.command == UpdateCommand ==>
                  response == if id in s.snapshots then Success else NotFound)
            && (!replayed && q.command.OtherCommand? ==> response == UnknownCommand(q.command.name))
            && s'.snapshots == (if !replayed && q.command == UpdateCommand
                                then UpdatedSnapshots(s.snapshots, id, q.body.value.info) else s.snapshots)
  {
  }

  /** A request that is not genuine changes nothing. */
  lemma NotGenuine(s: State, q: Request)
    requires q.body.None? || forall c :: !Genuine(s.secrets, q.body.value, q.verifiedAt, c)
    ensures Execute(s, q) == (s, Unauthenticated)
  {
  }

  class CommandServer {
    var secrets: Secrets
    const replay: Cache
    const store: SnapshotStore

    ghost function Now(): State
      reads this, replay, store
    {
      State(secrets, store.snapshots, replay.seen)
    }

    constructor (secrets: Secrets, store: SnapshotStore)
      ensures Now() == State(secrets, store.snapshots, map[])
      ensures fresh(replay) && this.store == store
    {
      this.secrets := secrets;
      this.store := store;
      replay := new Cache();
    }

    method GrpcKeys(namespace: string, sidekick: string) returns (keys: Option<Keys>)
      ensures keys == KeysOf(secrets, namespace, sidekick)
    {
      var id := SidekickId(namespace, sidekick);
      if id !in secrets {
        return None;
      }
      if |secrets[id].signing| == 0 || |secrets[id].snapshot| == 0 {
        return None;
      }
      return Some(secrets[id]);
    }

    /** authenticate: the replay check comes last, so only good tokens burn a nonce. */
    method Authenticate(e: Envelope, verifiedAt: int, acceptedAt: int) returns (claims: Option<Claims>)
      modifies replay
      ensures var c := Credentials(secrets, e, verifiedAt);
              && claims == (if c.Some? && Accepts(old(replay.seen), c.value.nonce, acceptedAt) then c else None)
              && replay.seen == (if c.None? then old(replay.seen)
                                 else AfterAccept(old(replay.seen), c.value.nonce, c.value.expiresAt, acceptedAt))
    {
      var keys := GrpcKeys(e.namespace, e.sidekick);
      if keys.None? {
        return None;
      }
      var token := Open(keys.value.signing, e.token);
      if token.Err? {
        return None;
      }
      var c := token.value;
      if Verify(c, verifiedAt, e.sidekick, e.namespace, BindingOf(e.sidekick, e.namespace, e.info)).Err? {
        return None;
      }
      var granted := DecryptString(keys.value.snapshot, e.grant);
      if granted.Err? || granted.value == Raw("") || granted.value != Raw(c.snapshotName) {
        return None;
      }
      var ok := replay.Accept(c.nonce, c.expiresAt, acceptedAt);
      if !ok {
        return None;
      }
      return Some(c);
    }

    method ExecuteCommand(q: Request) returns (response: Response)
      modifies replay, store
      ensures (Now(), response) == Execute(old(Now()), q)
    {
      if q.body.None? {
        return Unauthenticated;
      }
      var e := q.body.value;
      var claims := Authenticate(e, q.verifiedAt, q.acceptedAt);
      if claims.None? {
        return Unauthenticated;
      }
      var id := SnapshotId(e.namespace, claims.value.snapshotName);
      match q.command
      case UpdateCommand =>
        var found := store.UpdateSnapshot(id, e.info);
        return if found then Success else NotFound;
      case GetCommand =>
        return if id in store.snapshots then Output(store.snapshots[id]) else NotFound;
      case OtherCommand(name) =>
        return UnknownCommand(name);
    }
  }
}
