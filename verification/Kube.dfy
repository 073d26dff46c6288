/**
 The values the operator reads and writes: pods, Sidekicks, their annotations and
 the generation hash. Names that the program declares as distinct string constants
 are constructors here, so that distinctness needs no string reasoning.
 */
module Kube {
  import opened Terms

  datatype Option<+T> = None | Some(value: T)

  datatype Result<+T> = Ok(value: T) | Err(message: string)

  type Uid = string

  const INT32_MAX := 0x7fff_ffff

  type Int32 = x: int | -0x8000_0000 <= x <= 0x7fff_ffff
  type Nat32 = x: int | 0 <= x <= 0x7fff_ffff

  /** Annotation keys the operator itself uses; every other key is `OtherKey`. */
  datatype Key = KeyHash | KeyLeader | KeyDeletionInitiator | KeyClusterName | KeyLastApplied | OtherKey(name: string)

  /** An annotation value: a text, or the digest that `GenerationHash` prints. The digest is
      symbolic: it holds exactly what is hashed, so equal digests have equal inputs. */
  datatype Value = Text(text: string)
                 | Digest(generation: int, labels: map<string, string>, annotations: Option<map<Key, Value>>)

  type Annotations = map<Key, Value>

  function Lookup(m: Annotations, k: Key): Value {
    if k in m then m[k] else Text("")
  }

  /** meta.GenerationHash: generation, labels, and annotations without the last-applied one;
      the annotations entry is present exactly when there is any annotation at all. */
  function GenerationHash(generation: int, labels: map<string, string>, annotations: Annotations): Value {
    Digest(generation, labels, if |annotations| > 0 then Some(annotations - {KeyLastApplied}) else None)
  }

  datatype PodPhase = PhaseUnset | PodPending | PodRunning | PodSucceeded | PodFailed | PodUnknown

  datatype RestartPolicy = PolicyUnset | Always | OnFailure | Never

  datatype SidekickPhase = SkUnset | SkPending | SkCurrent | SkDegraded | SkFailed | SkSucceeded

  datatype SelectionPolicy = PolicyFirst | PolicyLast | SelectionUnset

  datatype VolumeMount = VolumeMount(
    name: string, readOnly: bool, mountPath: string, subPath: string,
    propagation: Option<string>, subPathExpr: string)

  /** A volume: its name and the definitions merged into it, each overriding the ones before. */
  datatype Volume = Volume(name: string, layers: seq<string>)

  /** Environment variable names the operator itself uses. */
  datatype EnvName =
    | EnvLeaderName | EnvSnapshotName | EnvTokenSecret | EnvSnapshotToken | EnvServerAddress | OtherEnv(name: string)

  datatype EnvVar = EnvVar(name: EnvName, value: Blob)

  /** A container; `rest` stands for all fields that are copied without being looked at. */
  datatype Container = Container(name: string, env: seq<EnvVar>, mounts: seq<VolumeMount>, rest: string)

  /** The part of a pod spec the operator computes. */
  datatype PodSpec = PodSpec(
    node: string, volumes: seq<Volume>, containers: seq<Container>, initContainers: seq<Container>)

  datatype ContainerStatus = ContainerStatus(restarts: Nat32, running: bool)

  /** A pod that may be chosen as leader. `selected`: it matches the Sidekick's label selector. */
  datatype Candidate = Candidate(
    name: string, selected: bool, phase: PodPhase, annotations: Annotations, spec: PodSpec)

  /** The sidekick pod as the API server stores it. `finalizer` is the operator's finalizer,
      `deleting` the deletion timestamp. */
  datatype Pod = Pod(
    uid: Uid, annotations: Annotations, finalizer: bool, deleting: bool, spec: PodSpec,
    phase: PodPhase, statuses: seq<ContainerStatus>, initStatuses: seq<ContainerStatus>)

  datatype LeaderSpec = LeaderSpec(name: string, selection: SelectionPolicy)

  datatype SidekickSpec = SidekickSpec(
    leader: LeaderSpec, policy: RestartPolicy, backoffLimit: Option<Int32>,
    volumes: seq<Volume>, containers: seq<Container>, initContainers: seq<Container>)

  /** Status; the two maps are `ContainerRestartCountsPerPod` and `FailureCount`. */
  datatype Status = Status(
    leaderName: string, podPhase: PodPhase, phase: SidekickPhase, observedGeneration: int,
    restarts: map<Uid, Int32>, failures: map<Uid, bool>)

  /** A Sidekick. `finalizer` is the operator's finalizer; `foreignFinalizers` says that
      some other controller holds one too. */
  datatype Sidekick = Sidekick(
    spec: SidekickSpec, generation: int, labels: map<string, string>, annotations: Annotations,
    finalizer: bool, foreignFinalizers: bool, deleting: bool, status: Status)

  function HashOf(sk: Sidekick): Value {
    GenerationHash(sk.generation, sk.labels, sk.annotations)
  }
}
