/**
 What the operator hands to the archiver: the keys in the Sidekick's Secret, and the environment of
 the "wal-g" container, which carries the signing key, the snapshot grant and the server address.
 */
module Wiring {
  import opened Kube
  import opened Terms
  import opened Token
  import opened Server

  // ------------------------------------------------------------------ keys

  /** ensureGRPCKeys: the Secret afterwards. Only missing entries are filled, with fresh random keys. */
  function EnsureKeys(secrets: Secrets, id: SidekickId, random: Keys): (r: Secrets)
    ensures id in r && r.Keys == secrets.Keys + {id}
    ensures forall k | k in secrets && k != id :: r[k] == secrets[k]
    ensures id in secrets && secrets[id].signing != "" ==> r[id].signing == secrets[id].signing
    ensures id in secrets && secrets[id].snapshot != "" ==> r[id].snapshot == secrets[id].snapshot
    ensures id !in secrets || secrets[id].signing == "" ==> r[id].signing == random.signing
    ensures id !in secrets || secrets[id].snapshot == "" ==> r[id].snapshot == random.snapshot
    ensures random.signing != "" && random.snapshot != "" ==> KeysOf(r, id.namespace, id.name) == Some(r[id])
  {
    var held := if id in secrets then secrets[id] else Keys("", "");
    secrets[id := Keys(if held.signing == "" then random.signing else held.signing,
                       if held.snapshot == "" then random.snapshot else held.snapshot)]
  }

  class KeyStore {
    var secrets: Secrets

    constructor (secrets: Secrets)
      ensures this.secrets == secrets
    {
      this.secrets := secrets;
    }

    /** ensureGRPCKeys; the two random keys are arguments. */
    method EnsureGRPCKeys(id: SidekickId, random: Keys) returns (keys: Result<Keys>)
      modifies this
      ensures secrets == EnsureKeys(old(secrets), id, random)
      ensures var held := KeysOf(secrets, id.namespace, id.name);
              if held.Some? then keys == Ok(held.value) else keys.Err?
    {
      if id in secrets && |secrets[id].signing| > 0 && |secrets[id].snapshot| > 0 {
        return Ok(secrets[id]);
      }
      var secret := if id in secrets then secrets[id] else Keys("", "");
      if |secret.signing| == 0 {
        secret := secret.(signing := random.signing);
      }
      if |secret.snapshot| == 0 {
        secret := secret.(snapshot := random.snapshot);
      }
      secrets := secrets[id := secret];
      if |secrets[id].signing| == 0 || |secrets[id].snapshot| == 0 {
        return Err("grpc keys empty after ensure");
      }
      return Ok(secrets[id]);
    }
  }

  // ------------------------------------------------------------------ environment

  predicate Sets(env: seq<EnvVar>, name: EnvName) {
    env != [] && (env[0].name == name || Sets(env[1..], name))
  }

  /** The value of a variable: its first occurrence, or the empty string. */
  function EnvIn(env: seq<EnvVar>, name: EnvName): Blob {
    if env == [] then Raw("") else if env[0].name == name then env[0].value else EnvIn(env[1..], name)
  }

  /** By position: the value of the first variable of that name, and the empty string if there is none. */
  lemma {:induction false} EnvByPosition(env: seq<EnvVar>, name: EnvName, i: nat)
    requires i <= |env| && (forall j | 0 <= j < i :: env[j].name != name)
    ensures i == |env| ==> EnvIn(env, name) == Raw("")
    ensures i < |env| && env[i].name == name ==> EnvIn(env, name) == env[i].value
  {
    if i > 0 {
      EnvByPosition(env[1..], name, i - 1);
    }
  }

  /** Replace the first occurrence, or append. */
  function PutEnv(env: seq<EnvVar>, name: EnvName, value: Blob): seq<EnvVar> {
    if env == [] then [EnvVar(name, value)]
    else if env[0].name == name then [EnvVar(name, value)] + env[1..]
    else [env[0]] + PutEnv(env[1..], name, value)
  }

  /** Setting a variable sets that one and no other. */
  lemma {:induction false} PutEnvReads(env: seq<EnvVar>, name: EnvName, value: Blob, n: EnvName)
    ensures EnvIn(PutEnv(env, name, value), n) == if n == name then value else EnvIn(env, n)
    ensures Sets(PutEnv(env, name, value), n) <==> n == name || Sets(env, n)
  {
    var r := PutEnv(env, name, value);
    if env == [] {
      assert r[1..] == [];
    } else if env[0].name == name {
      assert r[1..] == env[1..];
    } else {
      PutEnvReads(env[1..], name, value, n);
      assert r[1..] == PutEnv(env[1..], name, value);
    }
  }

  /** Either the first variable of that name gets the value and everything else keeps its place, or
      there is none and the variable is appended. */
  lemma {:induction false} PutEnvPlaces(env: seq<EnvVar>, name: EnvName, value: Blob) returns (i: nat)
    ensures i <= |env| && (forall j | 0 <= j < i :: env[j].name != name)
    ensures Sets(env, name) <==> i < |env|
    ensures i < |env| ==> env[i].name == name && PutEnv(env, name, value) == env[i := EnvVar(name, value)]
    ensures i == |env| ==> PutEnv(env, name, value) == env + [EnvVar(name, value)]
  {
    if env == [] || env[0].name == name {
      i := 0;
    } else {
      i := PutEnvPlaces(env[1..], name, value);
      i := i + 1;
    }
  }

  /** A second time it changes nothing. */
  lemma {:induction false} PutEnvStable(env: seq<EnvVar>, name: EnvName, value: Blob)
    requires Sets(env, name) && EnvIn(env, name) == value
    ensures PutEnv(env, name, value) == env
  {
    if env[0].name == name {
      assert env == [env[0]] + env[1..];
    } else {
      PutEnvStable(env[1..], name, value);
    }
  }

  lemma {:induction false} PutEnvAt(env: seq<EnvVar>, name: EnvName, value: Blob, i: nat)
    requires i <= |env| && forall j | 0 <= j < i :: env[j].name != name
    requires i < |env| ==> env[i].name == name
    ensures PutEnv(env, name, value) == if i < |env| then env[i := EnvVar(name, value)] else env + [EnvVar(name, value)]
  {
    if i > 0 {
      PutEnvAt(env[1..], name, value, i - 1);
    }
  }

  /** Nothing but the given value enters the environment. */
  lemma {:induction false} PutEnvValues(env: seq<EnvVar>, name: EnvName, value: Blob, v: EnvVar)
    requires v in PutEnv(env, name, value)
    ensures v in env || v.value == value
  {
    if env != [] && env[0].name != name && v != env[0] {
      PutEnvValues(env[1..], name, value, v);
    }
  }

  // ------------------------------------------------------------------ the wal-g container

  const WAL_G := "wal-g"

  /** getSidekickContainer: the first container of that name. */
  function Archiver(cs: seq<Container>): (r: Option<nat>)
    ensures r.Some? ==> r.value < |cs| && cs[r.value].name == "wal-g"
    ensures r.Some? ==> forall j | 0 <= j < r.value :: cs[j].name != "wal-g"
    ensures r.None? ==> forall c | c in cs :: c.name != "wal-g"
  {
    if cs == [] then None
    else if cs[0].name == WAL_G then Some(0)
    else
      match Archiver(cs[1..])
      case None => None
      case Some(i) => Some(i + 1)
  }

  function GrantedEnv(env: seq<EnvVar>, snapshotKey: string): Result<seq<EnvVar>> {
    var name := EnvIn(env, EnvSnapshotName);
    if name == Raw("") then Ok(env)
    else
      match EncryptString(snapshotKey, name)
      case Err(e) => Err(e)
      case Ok(grant) => Ok(PutEnv(env, EnvSnapshotToken, grant))
  }

  /** The environment after setSigningKey, setSnapshotGrant and setGRPCAddress. */
  function WiredEnv(env: seq<EnvVar>, keys: Keys, address: Result<string>): Result<seq<EnvVar>> {
    match GrantedEnv(PutEnv(env, EnvTokenSecret, Raw(keys.signing)), keys.snapshot)
    case Err(e) => Err(e)
    case Ok(granted) =>
      match address
      case Err(e) => Err(e)
      case Ok(a) => Ok(PutEnv(granted, EnvServerAddress, Raw(a)))
  }

  const NO_ARCHIVER := "wal-g container not found"

  function Wire(cs: seq<Container>, keys: Keys, address: Result<string>): Result<seq<Container>> {
    match Archiver(cs)
    case None => Err(NO_ARCHIVER)
    case Some(i) =>
      match WiredEnv(cs[i].env, keys, address)
      case Err(e) => Err(e)
      case Ok(env) => Ok(cs[i := cs[i].(env := env)])
  }

  /** The Sidekick's containers, whose environment the operator edits in place. */
  class SidekickSpecObject {
    var containers: seq<Container>

    constructor (cs: seq<Container>)
      ensures containers == cs
    {
      containers := cs;
    }

    method GetSidekickContainer() returns (index: Option<nat>)
      ensures index == Archiver(containers)
    {
      var i := 0;
      while i < |containers|
        invariant 0 <= i <= |containers|
        invariant forall j | 0 <= j < i :: containers[j].name != WAL_G
      {
        if containers[i].name == WAL_G {
          return Some(i);
        }
        i := i + 1;
      }
      return None;
    }

    method GetEnv(c: nat, name: EnvName) returns (value: Blob)
      requires c < |containers|
      ensures value == EnvIn(containers[c].env, name)
    {
      var env := containers[c].env;
      var i := 0;
      while i < |env|
        invariant 0 <= i <= |env|
        invariant EnvIn(env, name) == EnvIn(env[i..], name)
      {
        if env[i].name == name {
          return env[i].value;
        }
        i := i + 1;
      }
      return Raw("");
    }

    method SetEnv(c: nat, name: EnvName, value: Blob)
      requires c < |containers|
      modifies this
      ensures containers == WithEnv(old(containers), c, PutEnv(old(containers)[c].env, name, value))
    {
      var env := containers[c].env;
      var i := 0;
      while i < |env|
        invariant 0 <= i <= |env| && containers == old(containers)
        invariant forall j | 0 <= j < i :: env[j].name != name
      {
        if env[i].name == name {
          containers := containers[c := containers[c].(env := env[i := env[i].(value := value)])];
          PutEnvAt(env, name, value, i);
          return;
        }
        i := i + 1;
      }
      containers := containers[c := containers[c].(env := env + [EnvVar(name, value)])];
      PutEnvAt(env, name, value, i);
    }

    method SetSigningKey(key: string) returns (r: Result<()>)
      modifies this
      ensures var i := Archiver(old(containers));
              if i.None? then r == Err(NO_ARCHIVER) && containers == old(containers)
              else
                var env := PutEnv(old(containers)[i.value].env, EnvTokenSecret, Raw(key));
                r.Ok? && containers == WithEnv(old(containers), i.value, env)
    {
      var i := GetSidekickContainer();
      if i.None? {
        return Err(NO_ARCHIVER);
      }
      SetEnv(i.value, EnvTokenSecret, Raw(key));
      return Ok(());
    }

    method SetSnapshotGrant(snapshotKey: string) returns (r: Result<()>)
      modifies this
      ensures var i := Archiver(old(containers));
              if i.None? then r == Err(NO_ARCHIVER) && containers == old(containers)
              else match GrantedEnv(old(containers)[i.value].env, snapshotKey)
                   case Err(e) => r == Err(e) && containers == old(containers)
                   case Ok(env) => r.Ok? && containers == WithEnv(old(containers), i.value, env)
    {
      var i := GetSidekickContainer();
      if i.None? {
        return Err(NO_ARCHIVER);
      }
      var name := GetEnv(i.value, EnvSnapshotName);
      if name == Raw("") {
        return Ok(());
      }
      var grant := EncryptString(snapshotKey, name);
      if grant.Err? {
        return Err(grant.message);
      }
      SetEnv(i.value, EnvSnapshotToken, grant.value);
      return Ok(());
    }

    method SetGRPCAddress(address: Result<string>) returns (r: Result<()>)
      modifies this
      ensures var i := Archiver(old(containers));
              if i.None? then r == Err(NO_ARCHIVER) && containers == old(containers)
              else match address
                   case Err(e) => r == Err(e) && containers == old(containers)
                   case Ok(a) =>
                     var env := PutEnv(old(containers)[i.value].env, EnvServerAddress, Raw(a));
                     r.Ok? && containers == WithEnv(old(containers), i.value, env)
    {
      var i := GetSidekickContainer();
      if i.None? {
        return Err(NO_ARCHIVER);
      }
      if address.Err? {
        return Err(address.message);
      }
      SetEnv(i.value, EnvServerAddress, Raw(address.value));
      return Ok(());
    }

    /** The three edits as the creation of a distributed pod makes them. */
    method WireArchiver(keys: Keys, address: Result<string>) returns (r: Result<()>)
      modifies this
      ensures match Wire(old(containers), keys, address)
              case Err(e) => r == Err(e)
              case Ok(cs) => r.Ok? && containers == cs
    {
      r := SetSigningKey(keys.signing);
      if r.Err? {
        return;
      }
      ghost var i := Archiver(old(containers)).value;
      ArchiverStays(old(containers), i, containers[i].env);
      ghost var signed := containers;
      r := SetSnapshotGrant(keys.snapshot);
      if r.Err? {
        return;
      }
      ArchiverStays(signed, i, containers[i].env);
      r := SetGRPCAddress(address);
    }
  }

  function WithEnv(cs: seq<Container>, i: nat, env: seq<EnvVar>): seq<Container>
    requires i < |cs|
  {
    cs[i := cs[i].(env := env)]
  }

  lemma {:induction false} ArchiverStays(cs: seq<Container>, i: nat, env: seq<EnvVar>)
    requires Archiver(cs) == Some(i)
    ensures Archiver(WithEnv(cs, i, env)) == Some(i)
  {
    if i > 0 {
      ArchiverStays(cs[1..], i - 1, env);
      assert WithEnv(cs, i, env)[1..] == WithEnv(cs[1..], i - 1, env);
    }
  }

  /** The grant a container with this environment gets. */
  function GrantFor(env: seq<EnvVar>, keys: Keys): Blob {
    var name := EnvIn(env, EnvSnapshotName);
    if name == Raw("") then EnvIn(env, EnvSnapshotToken)
    else Sealed(keys.snapshot, Derived(keys.snapshot, name), PlainText(name))
  }

  lemma GrantedEnvReads(env: seq<EnvVar>, keys: Keys, n: EnvName)
    requires keys.snapshot != ""
    ensures GrantedEnv(env, keys.snapshot).Ok?
    ensures var r := GrantedEnv(env, keys.snapshot).value;
            && EnvIn(r, n) == (if n == EnvSnapshotToken then GrantFor(env, keys) else EnvIn(env, n))
            && (Sets(r, n) <==> Sets(env, n) || (n == EnvSnapshotToken && EnvIn(env, EnvSnapshotName) != Raw("")))
  {
    PutEnvReads(env, EnvSnapshotToken, GrantFor(env, keys), n);
  }

  /** The archiver reads the signing key, the address, and a grant for its own SNAPSHOT_NAME; without
      that name it gets no grant. No other variable changes. */
  lemma WiredEnvMeaning(env: seq<EnvVar>, keys: Keys, address: string, n: EnvName)
    requires keys.snapshot != ""
    ensures WiredEnv(env, keys, Ok(address)).Ok?
    ensures var r := WiredEnv(env, keys, Ok(address)).value;
            && EnvIn(r, n) == (match n
                               case EnvTokenSecret => Raw(keys.signing)
                               case EnvServerAddress => Raw(address)
                               case EnvSnapshotToken =>
                                 var name := EnvIn(env, EnvSnapshotName);
                                 if name == Raw("") then EnvIn(env, EnvSnapshotToken)
                                 else Sealed(keys.snapshot, Derived(keys.snapshot, name), PlainText(name))
                               case _ => EnvIn(env, n))
            && (Sets(r, n) <==> Sets(env, n) || n == EnvTokenSecret || n == EnvServerAddress
                                || (n == EnvSnapshotToken && EnvIn(env, EnvSnapshotName) != Raw("")))
  {
    var e1 := PutEnv(env, EnvTokenSecret, Raw(keys.signing));
    PutEnvReads(env, EnvTokenSecret, Raw(keys.signing), n);
    PutEnvReads(env, EnvTokenSecret, Raw(keys.signing), EnvSnapshotName);
    PutEnvReads(env, EnvTokenSecret, Raw(keys.signing), EnvSnapshotToken);
    GrantedEnvReads(e1, keys, n);
    PutEnvReads(GrantedEnv(e1, keys.snapshot).value, EnvServerAddress, Raw(address), n);
  }

  lemma WiredEnvStable(env: seq<EnvVar>, keys: Keys, address: string)
    requires keys.snapshot != ""
    ensures var r := WiredEnv(env, keys, Ok(address));
            r.Ok? && WiredEnv(r.value, keys, Ok(address)) == r
  {
    var r := WiredEnv(env, keys, Ok(address)).value;
    WiredEnvMeaning(env, keys, address, EnvTokenSecret);
    WiredEnvMeaning(env, keys, address, EnvSnapshotToken);
    WiredEnvMeaning(env, keys, address, EnvSnapshotName);
    WiredEnvMeaning(env, keys, address, EnvServerAddress);
    PutEnvStable(r, EnvTokenSecret, Raw(keys.signing));
    if EnvIn(r, EnvSnapshotName) != Raw("") {
      PutEnvStable(r, EnvSnapshotToken, GrantFor(env, keys));
    }
    PutEnvStable(r, EnvServerAddress, Raw(address));
  }

  /** Wiring again with the same keys and address changes nothing, so the pod spec does not drift. */
  lemma WiringIsStable(cs: seq<Container>, keys: Keys, address: string)
    requires keys.snapshot != "" && Archiver(cs).Some?
    ensures var r := Wire(cs, keys, Ok(address));
            r.Ok? && Wire(r.value, keys, Ok(address)) == r
  {
    var i := Archiver(cs).value;
    var env := WiredEnv(cs[i].env, keys, Ok(address)).value;
    WiredEnvStable(cs[i].env, keys, address);
    ArchiverStays(cs, i, env);
    assert WithEnv(WithEnv(cs, i, env), i, env) == WithEnv(cs, i, env);
  }
}
