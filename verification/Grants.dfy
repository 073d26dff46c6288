/**
 Grant soundness over whole runs, against an attacker who holds every archiver: he sees whatever the
 operator puts into a container's environment, invents strings, seals and opens with the keys he
 knows, and sends any request he can build. He cannot guess a generated snapshot key.
 */
module Grants {
  import opened Kube
  import opened Terms
  import opened Token
  import opened LogHistory
  import opened Server
  import opened Wiring

  /** A grant the operator issued: for a Sidekick, under a snapshot key, naming a text. */
  datatype Grant = Grant(id: SidekickId, key: string, text: Blob)

  function GrantBlob(g: Grant): Blob {
    Sealed(g.key, Derived(g.key, g.text), PlainText(g.text))
  }

  /** `known` is what the attacker holds; `owner` remembers every snapshot key ever generated. */
  datatype World = World(server: State, issued: set<Grant>, owner: map<string, SidekickId>, known: set<Blob>)

  datatype Action =
    | Provision(id: SidekickId, containers: seq<Container>, address: Result<string>, random: Keys)
    | DropSecret(id: SidekickId)
    | Invent(guess: string)
    | SealText(key: string, iv: Iv, text: Blob)
    | SealClaims(key: string, iv: Iv, claims: Claims)
    | Unseal(key: string, blob: Blob)
    | Send(request: Request)

  predicate Mentions(b: Blob, key: string) {
    match b
    case Raw(text) => text == key
    case Sealed(k, _, PlainText(t)) => k == key || Mentions(t, key)
    case Sealed(k, _, PlainClaims(_)) => k == key
  }

  /** A random key: not empty, and never seen before. */
  predicate Fresh(w: World, key: string) {
    && key != "" && key !in w.owner
    && (forall id | id in w.server.secrets :: w.server.secrets[id].signing != key)
    && (forall b | b in w.known :: !Mentions(b, key))
  }

  function EnvBlobs(cs: seq<Container>): set<Blob> {
    set c, v | c in cs && v in c.env :: v.value
  }

  predicate Enabled(w: World, a: Action) {
    match a
    case Provision(id, cs, address, random) =>
      && Fresh(w, random.signing) && Fresh(w, random.snapshot) && random.signing != random.snapshot
      && EnvBlobs(cs) <= w.known && (address.Ok? ==> Raw(address.value) in w.known)
    case DropSecret(id) => true
    case Invent(text) => text !in w.owner
    case SealText(key, iv, text) => Raw(key) in w.known && text in w.known
    case SealClaims(key, iv, claims) => Raw(key) in w.known
    case Unseal(key, b) => Raw(key) in w.known && b in w.known
    case Send(q) => q.body.Some? ==> q.body.value.token in w.known && q.body.value.grant in w.known
  }

  /** The grant that wiring these containers issues. */
  function IssuedBy(id: SidekickId, cs: seq<Container>, keys: Keys): set<Grant> {
    match Archiver(cs)
    case None => {}
    case Some(i) =>
      var name := EnvIn(cs[i].env, EnvSnapshotName);
      if name == Raw("") then {} else {Grant(id, keys.snapshot, name)}
  }

  /** Keys are ensured; if the wiring succeeds, the containers and their grant go out. */
  function Provisioned(w: World, id: SidekickId, cs: seq<Container>, address: Result<string>, random: Keys): World {
    var secrets := EnsureKeys(w.server.secrets, id, random);
    var keys := secrets[id];
    var w' := w.(server := w.server.(secrets := secrets), owner := w.owner[keys.snapshot := id]);
    match Wire(cs, keys, address)
    case Err(_) => w'
    case Ok(wired) => w'.(issued := w.issued + IssuedBy(id, cs, keys), known := w.known + EnvBlobs(wired))
  }

  function Apply(w: World, a: Action): World {
    match a
    case Provision(id, cs, address, random) => Provisioned(w, id, cs, address, random)
    case DropSecret(id) => w.(server := w.server.(secrets := w.server.secrets - {id}))
    case Invent(text) => w.(known := w.known + {Raw(text)})
    case SealText(key, iv, text) => w.(known := w.known + {Sealed(key, iv, PlainText(text))})
    case SealClaims(key, iv, claims) => w.(known := w.known + {Sealed(key, iv, PlainClaims(claims))})
    case Unseal(key, b) =>
      (match Decrypt(key, b)
       case Ok(PlainText(t)) => w.(known := w.known + {t})
       case _ => w)
    case Send(q) => w.(server := Execute(w.server, q).0)
  }

  // ------------------------------------------------------------------ invariant

  /** Nothing in a blob is sealed under a generated snapshot key except grants the operator issued,
      and no such key stands in the open. */
  predicate Clean(w: World, b: Blob) {
    match b
    case Raw(text) => text !in w.owner
    case Sealed(k, _, PlainText(t)) => Clean(w, t) && (k in w.owner ==> Grant(w.owner[k], k, t) in w.issued)
    case Sealed(k, _, PlainClaims(_)) => k !in w.owner
  }

  /** Every snapshot key belongs to one Sidekick, and no signing key is one. */
  predicate KeysApart(w: World) {
    && (forall id | id in w.server.secrets && w.server.secrets[id].snapshot != "" ::
          w.server.secrets[id].snapshot in w.owner && w.owner[w.server.secrets[id].snapshot] == id)
    && (forall id | id in w.server.secrets :: w.server.secrets[id].signing !in w.owner)
    && (forall g | g in w.issued :: g.key in w.owner && w.owner[g.key] == g.id)
    && "" !in w.owner
  }

  predicate Inv(w: World) {
    KeysApart(w) && forall b | b in w.known :: Clean(w, b)
  }

  predicate Initial(w: World) {
    w.issued == {} && w.owner == map[] && forall id | id in w.server.secrets :: w.server.secrets[id].snapshot == ""
  }

  lemma {:induction false} CleanAtFirst(w: World, b: Blob)
    requires w.owner == map[]
    ensures Clean(w, b)
  {
    if b.Sealed? && b.plain.PlainText? {
      CleanAtFirst(w, b.plain.text);
    }
  }

  lemma InitialInv(w: World)
    requires Initial(w)
    ensures Inv(w)
  {
    forall b | b in w.known {
      CleanAtFirst(w, b);
    }
  }

  /** A blob stays clean when grants are added and a key it does not mention becomes owned. */
  lemma {:induction false} CleanGrows(w: World, w': World, b: Blob)
    requires Clean(w, b) && w.issued <= w'.issued
    requires forall k | k in w'.owner && Mentions(b, k) :: k in w.owner && w'.owner[k] == w.owner[k]
    ensures Clean(w', b)
  {
    match b
    case Raw(text) => assert Mentions(b, text);
    case Sealed(k, _, PlainText(t)) =>
      assert Mentions(b, k);
      CleanGrows(w, w', t);
    case Sealed(k, _, PlainClaims(_)) => assert Mentions(b, k);
  }

  // ------------------------------------------------------------------ provisioning

  /** Where the values in wired containers come from. */
  lemma WiredBlobs(cs: seq<Container>, keys: Keys, address: Result<string>, b: Blob)
    requires Wire(cs, keys, address).Ok? && b in EnvBlobs(Wire(cs, keys, address).value)
    requires keys.snapshot != ""
    ensures b in EnvBlobs(cs) || b == Raw(keys.signing) || b == Raw(address.value)
            || (var name := EnvIn(cs[Archiver(cs).value].env, EnvSnapshotName);
                name != Raw("") && b == Sealed(keys.snapshot, Derived(keys.snapshot, name), PlainText(name)))
  {
    var i := Archiver(cs).value;
    var wired := Wire(cs, keys, address).value;
    var c, v :| c in wired && v in c.env && v.value == b;
    if c !in cs {
      var env := cs[i].env;
      var e1 := PutEnv(env, EnvTokenSecret, Raw(keys.signing));
      var e2 := GrantedEnv(e1, keys.snapshot).value;
      PutEnvReads(env, EnvTokenSecret, Raw(keys.signing), EnvSnapshotName);
      PutEnvValues(e2, EnvServerAddress, Raw(address.value), v);
      if v in e2 {
        if e2 != e1 {
          PutEnvValues(e1, EnvSnapshotToken, GrantFor(e1, keys), v);
        }
        if v in e1 {
          PutEnvValues(env, EnvTokenSecret, Raw(keys.signing), v);
        }
      }
      assert v in env ==> cs[i] in cs;
    }
  }

  lemma {:induction false} EnvInKnown(env: seq<EnvVar>, name: EnvName)
    ensures EnvIn(env, name) == Raw("") || exists v :: v in env && v.value == EnvIn(env, name)
  {
    if env != [] && env[0].name != name {
      EnvInKnown(env[1..], name);
      if EnvIn(env, name) != Raw("") {
        var v :| v in env[1..] && v.value == EnvIn(env, name);
        assert v in env;
      }
    }
  }

  lemma KeysStayApart(w: World, id: SidekickId, random: Keys, w': World)
    requires KeysApart(w) && Fresh(w, random.signing) && Fresh(w, random.snapshot) && random.signing != random.snapshot
    requires w'.server.secrets == EnsureKeys(w.server.secrets, id, random)
    requires w'.owner == w.owner[w'.server.secrets[id].snapshot := id]
    requires forall g | g in w'.issued :: g in w.issued || (g.id == id && g.key == w'.server.secrets[id].snapshot)
    ensures KeysApart(w')
    ensures w'.owner == w.owner || w'.owner == w.owner[random.snapshot := id]
  {
    var key := w'.server.secrets[id].snapshot;
    if key in w.owner {
      assert w.owner[key] == id;
      assert w'.owner == w.owner;
    }
  }

  lemma ProvisionKeeps(w: World, id: SidekickId, cs: seq<Container>, address: Result<string>, random: Keys)
    requires Inv(w) && Enabled(w, Provision(id, cs, address, random))
    ensures Inv(Provisioned(w, id, cs, address, random))
  {
    var w' := Provisioned(w, id, cs, address, random);
    var keys := w'.server.secrets[id];
    KeysStayApart(w, id, random, w');
    forall b | b in w.known ensures Clean(w', b) {
      CleanGrows(w, w', b);
    }
    if Wire(cs, keys, address).Ok? {
      forall b | b in w'.known && b !in w.known ensures Clean(w', b) {
        WiredBlobs(cs, keys, address, b);
        var env := cs[Archiver(cs).value].env;
        EnvInKnown(env, EnvSnapshotName);
        if EnvIn(env, EnvSnapshotName) != Raw("") {
          var v :| v in env && v.value == EnvIn(env, EnvSnapshotName);
          assert v.value in EnvBlobs(cs);
        }
      }
    }
  }

  lemma LearnKeeps(w: World, b: Blob)
    requires Inv(w) && Clean(w, b)
    ensures Inv(w.(known := w.known + {b}))
  {
    var w' := w.(known := w.known + {b});
    forall c | c in w'.known ensures Clean(w', c) {
      CleanGrows(w, w', c);
    }
  }

  lemma ServerKeeps(w: World, s: State)
    requires Inv(w) && s.secrets.Keys <= w.server.secrets.Keys
    requires forall id | id in s.secrets :: s.secrets[id] == w.server.secrets[id]
    ensures Inv(w.(server := s))
  {
    var w' := w.(server := s);
    forall c | c in w'.known ensures Clean(w', c) {
      CleanGrows(w, w', c);
    }
  }

  lemma StepKeeps(w: World, a: Action)
    requires Inv(w) && Enabled(w, a)
    ensures Inv(Apply(w, a))
  {
    match a
    case Provision(id, cs, address, random) => ProvisionKeeps(w, id, cs, address, random);
    case DropSecret(id) => ServerKeeps(w, Apply(w, a).server);
    case Invent(text) => LearnKeeps(w, Raw(text));
    case SealText(key, iv, text) =>
      assert Clean(w, Raw(key));
      LearnKeeps(w, Sealed(key, iv, PlainText(text)));
    case SealClaims(key, iv, claims) =>
      assert Clean(w, Raw(key));
      LearnKeeps(w, Sealed(key, iv, PlainClaims(claims)));
    case Unseal(key, b) =>
      assert Clean(w, b);
      if b.Sealed? && b.key == key && key != "" && b.plain.PlainText? {
        LearnKeeps(w, b.plain.text);
      }
    case Send(q) => ServerKeeps(w, Execute(w.server, q).0);
  }

  // ------------------------------------------------------------------ what a request can touch

  /** A request that passes authentication carries a grant that the operator issued to this very
      Sidekick, under its present snapshot key, for the Snapshot the token names. */
  lemma CredentialsAreGranted(w: World, q: Request)
    requires Inv(w) && Enabled(w, Send(q)) && ClaimsOf(w.server.secrets, q).Some?
    ensures var id := SidekickId(q.body.value.namespace, q.body.value.sidekick);
            && id in w.server.secrets
            && (var name := ClaimsOf(w.server.secrets, q).value.snapshotName;
                Grant(id, w.server.secrets[id].snapshot, Raw(name)) in w.issued)
  {
    assert Clean(w, q.body.value.grant);
  }

  /** The operator issued a grant for this Snapshot, to a Sidekick in its namespace. */
  predicate Granted(w: World, sid: SnapshotId) {
    exists g | g in w.issued :: g.id.namespace == sid.namespace && g.text == Raw(sid.name)
  }

  predicate Changed(before: Snapshots, after: Snapshots, sid: SnapshotId) {
    (sid in before) != (sid in after) || (sid in before && before[sid] != after[sid])
  }

  /** The request comes from a Sidekick in the Snapshot's namespace to which the operator issued a grant
      for this Snapshot under the snapshot key that the Sidekick has now. */
  predicate ActsUnderGrant(w: World, q: Request, sid: SnapshotId) {
    && q.body.Some? && q.body.value.namespace == sid.namespace
    && var id := SidekickId(sid.namespace, q.body.value.sidekick);
       id in w.server.secrets && Grant(id, w.server.secrets[id].snapshot, Raw(sid.name)) in w.issued
  }

  lemma SendActsUnderGrant(w: World, q: Request, sid: SnapshotId)
    requires Inv(w) && Enabled(w, Send(q))
    requires Changed(w.server.snapshots, Execute(w.server, q).0.snapshots, sid)
    ensures ActsUnderGrant(w, q, sid)
  {
    CredentialsAreGranted(w, q);
  }

  /** GetSnapshot discloses only a granted Snapshot. */
  lemma SendDisclosesGranted(w: World, q: Request)
    requires Inv(w) && Enabled(w, Send(q)) && Execute(w.server, q).1.Output?
    ensures exists sid | sid in w.server.snapshots ::
              Granted(w, sid) && w.server.snapshots[sid] == Execute(w.server, q).1.snapshot
  {
    CredentialsAreGranted(w, q);
    var sid := TargetOf(ClaimsOf(w.server.secrets, q).value, q);
    assert Granted(w, sid);
  }

  // ------------------------------------------------------------------ runs

  predicate Legal(w: World, run: seq<Action>)
    decreases |run|
  {
    run == [] || (Enabled(w, run[0]) && Legal(Apply(w, run[0]), run[1..]))
  }

  function After(w: World, run: seq<Action>): World
    decreases |run|
  {
    if run == [] then w else After(Apply(w, run[0]), run[1..])
  }

  /** Whatever a step changes, it changes by a request under such a grant. */
  ghost predicate StepUnderGrant(w: World, a: Action) {
    forall sid | Changed(w.server.snapshots, Apply(w, a).server.snapshots, sid) ::
      a.Send? && ActsUnderGrant(w, a.request, sid)
  }

  ghost predicate RunUnderGrant(w: World, run: seq<Action>)
    decreases |run|
  {
    run != [] ==> StepUnderGrant(w, run[0]) && RunUnderGrant(Apply(w, run[0]), run[1..])
  }

  lemma StepTouchesGranted(w: World, a: Action)
    requires Inv(w) && Enabled(w, a)
    ensures w.issued <= Apply(w, a).issued && StepUnderGrant(w, a)
  {
    if a.Send? {
      forall sid | Changed(w.server.snapshots, Apply(w, a).server.snapshots, sid)
        ensures ActsUnderGrant(w, a.request, sid)
      {
        SendActsUnderGrant(w, a.request, sid);
      }
    }
  }

  lemma {:induction false} RunStaysUnderGrant(w: World, run: seq<Action>)
    requires Inv(w) && Legal(w, run)
    ensures Inv(After(w, run)) && w.issued <= After(w, run).issued && RunUnderGrant(w, run)
    decreases |run|
  {
    if run != [] {
      StepKeeps(w, run[0]);
      StepTouchesGranted(w, run[0]);
      RunStaysUnderGrant(Apply(w, run[0]), run[1..]);
    }
  }

  lemma StepGrants(w: World, a: Action, later: World, sid: SnapshotId)
    requires StepUnderGrant(w, a) && w.issued <= later.issued
    ensures Changed(w.server.snapshots, Apply(w, a).server.snapshots, sid) ==> Granted(later, sid)
  {
  }

  lemma {:induction false} RunTouchesGranted(w: World, run: seq<Action>, sid: SnapshotId)
    requires Inv(w) && Legal(w, run)
    ensures Changed(w.server.snapshots, After(w, run).server.snapshots, sid) ==> Granted(After(w, run), sid)
    decreases |run|
  {
    if run != [] {
      StepKeeps(w, run[0]);
      RunTouchesGranted(Apply(w, run[0]), run[1..], sid);
      RunStaysUnderGrant(w, run);
      StepGrants(w, run[0], After(w, run), sid);
    }
  }

  /** Grant soundness: whatever the attacker does, every change of a Snapshot at any step of a run is
      made by a request of a Sidekick to which the operator issued a grant for it, under the snapshot
      key that Sidekick has at that step; so every Snapshot that the run changes is a granted one. */
  lemma GrantSoundness(w: World, run: seq<Action>, sid: SnapshotId)
    requires Initial(w) && Legal(w, run)
    ensures RunUnderGrant(w, run)
    ensures Changed(w.server.snapshots, After(w, run).server.snapshots, sid) ==> Granted(After(w, run), sid)
  {
    InitialInv(w);
    RunStaysUnderGrant(w, run);
    RunTouchesGranted(w, run, sid);
  }

  // ------------------------------------------------------------------ grants stay valid

  /** A grant opens under the keys of exactly the Sidekick it was issued to, and only while that
      Sidekick's Secret is the one it was issued from. */
  lemma GrantOpensIff(w: World, run: seq<Action>, g: Grant, id: SidekickId)
    requires Initial(w) && Legal(w, run) && g in After(w, run).issued
    requires KeysOf(After(w, run).server.secrets, id.namespace, id.name).Some?
    ensures var key := KeysOf(After(w, run).server.secrets, id.namespace, id.name).value.snapshot;
            && (DecryptString(key, GrantBlob(g)).Ok? <==> key == g.key)
            && (key == g.key ==> id == g.id && DecryptString(key, GrantBlob(g)) == Ok(g.text))
  {
    InitialInv(w);
    RunStaysUnderGrant(w, run);
  }

  /** Every issued grant is under the present key of its Sidekick. */
  predicate Live(w: World) {
    forall g | g in w.issued ::
      && KeysOf(w.server.secrets, g.id.namespace, g.id.name).Some?
      && KeysOf(w.server.secrets, g.id.namespace, g.id.name).value.snapshot == g.key
  }

  lemma StepKeepsLive(w: World, a: Action)
    requires Live(w) && Enabled(w, a) && !a.DropSecret?
    ensures Live(Apply(w, a))
  {
  }

  /** Keys are written once: while no Secret is deleted, every grant ever issued still decrypts to the
      SNAPSHOT_NAME it was made from. */
  lemma {:induction false} GrantsStayValid(w: World, run: seq<Action>)
    requires Live(w) && Legal(w, run) && forall a | a in run :: !a.DropSecret?
    ensures Live(After(w, run))
    ensures forall g | g in After(w, run).issued ::
              DecryptString(After(w, run).server.secrets[g.id].snapshot, GrantBlob(g)) == Ok(g.text)
    decreases |run|
  {
    if run != [] {
      StepKeepsLive(w, run[0]);
      GrantsStayValid(Apply(w, run[0]), run[1..]);
    }
  }
}
