/**
 Building the sidekick pod's spec from the Sidekick and its leader: mounts named after the
 leader's, volumes merged by name, the leader's node.
 */
module PodBuilder {
  import opened Kube
  import opened Terms

  // ---------------------------------------------------------------- mounts

  /** All mounts of a list of containers, in order. */
  function MountsOf(cs: seq<Container>): seq<VolumeMount> {
    if cs == [] then [] else cs[0].mounts + MountsOf(cs[1..])
  }

  /** The mounts of a leader in the order findMount searches them. */
  function LeaderMounts(leader: Candidate): seq<VolumeMount> {
    MountsOf(leader.spec.containers) + MountsOf(leader.spec.initContainers)
  }

  predicate HasMount(leader: Candidate, name: string) {
    exists m :: m in LeaderMounts(leader) && m.name == name
  }

  function FirstNamed(ms: seq<VolumeMount>, name: string): (r: Option<VolumeMount>)
    ensures r.Some? ==> r.value in ms && r.value.name == name
    ensures r.None? ==> forall m | m in ms :: m.name != name
  {
    if ms == [] then None
    else if ms[0].name == name then Some(ms[0])
    else FirstNamed(ms[1..], name)
  }

  lemma {:induction false} FirstNamedConcat(a: seq<VolumeMount>, b: seq<VolumeMount>, name: string)
    ensures FirstNamed(a + b, name) == if FirstNamed(a, name).Some? then FirstNamed(a, name) else FirstNamed(b, name)
  {
    if a == [] {
      assert a + b == b;
    } else {
      assert (a + b)[1..] == a[1..] + b;
      FirstNamedConcat(a[1..], b, name);
    }
  }

  /** Container i is the first to have a mount of that name, and its mount j the first such. */
  predicate FirstMount(cs: seq<Container>, name: string, i: nat, j: nat) {
    && i < |cs| && j < |cs[i].mounts| && cs[i].mounts[j].name == name
    && (forall k | 0 <= k < j :: cs[i].mounts[k].name != name)
    && (forall h, k | 0 <= h < i && 0 <= k < |cs[h].mounts| :: cs[h].mounts[k].name != name)
  }

  predicate NoMount(cs: seq<Container>, name: string) {
    forall h, k | 0 <= h < |cs| && 0 <= k < |cs[h].mounts| :: cs[h].mounts[k].name != name
  }

  lemma {:induction false} FirstNamedAt(ms: seq<VolumeMount>, name: string, j: nat)
    requires j < |ms| && ms[j].name == name && forall k | 0 <= k < j :: ms[k].name != name
    ensures FirstNamed(ms, name) == Some(ms[j])
  {
    if j > 0 {
      FirstNamedAt(ms[1..], name, j - 1);
    }
  }

  lemma {:induction false} FirstMountFound(cs: seq<Container>, name: string, i: nat, j: nat)
    requires FirstMount(cs, name, i, j)
    ensures FirstNamed(MountsOf(cs), name) == Some(cs[i].mounts[j])
  {
    FirstNamedConcat(cs[0].mounts, MountsOf(cs[1..]), name);
    if i == 0 {
      FirstNamedAt(cs[0].mounts, name, j);
    } else {
      assert forall h | 0 <= h < |cs[1..]| :: cs[1..][h] == cs[h + 1];
      assert FirstMount(cs[1..], name, i - 1, j);
      FirstMountFound(cs[1..], name, i - 1, j);
      assert forall m | m in cs[0].mounts :: m.name != name;
    }
  }

  lemma {:induction false} NoMountFound(cs: seq<Container>, name: string)
    requires NoMount(cs, name)
    ensures FirstNamed(MountsOf(cs), name).None?
  {
    if cs != [] {
      assert forall h | 0 <= h < |cs[1..]| :: cs[1..][h] == cs[h + 1];
      NoMountFound(cs[1..], name);
      FirstNamedConcat(cs[0].mounts, MountsOf(cs[1..]), name);
      assert forall m | m in cs[0].mounts :: m.name != name;
    }
  }

  /** A name-only mount is a copy of the leader's first mount of that name in a container; only if no
      container has one, of the first in an init container. */
  lemma MountIsLeadersFirst(leader: Candidate, m: VolumeMount, i: nat, j: nat)
    requires NameOnly(m)
    ensures FirstMount(leader.spec.containers, m.name, i, j) ==>
              Resolvable(leader, m) && ConvMount(leader, m) == leader.spec.containers[i].mounts[j]
    ensures NoMount(leader.spec.containers, m.name) && FirstMount(leader.spec.initContainers, m.name, i, j) ==>
              Resolvable(leader, m) && ConvMount(leader, m) == leader.spec.initContainers[i].mounts[j]
    ensures NoMount(leader.spec.containers, m.name) && NoMount(leader.spec.initContainers, m.name) ==>
              !Resolvable(leader, m)
  {
    var cs, inits := leader.spec.containers, leader.spec.initContainers;
    FirstNamedConcat(MountsOf(cs), MountsOf(inits), m.name);
    if FirstMount(cs, m.name, i, j) {
      FirstMountFound(cs, m.name, i, j);
    } else if NoMount(cs, m.name) {
      NoMountFound(cs, m.name);
      if FirstMount(inits, m.name, i, j) {
        FirstMountFound(inits, m.name, i, j);
      } else if NoMount(inits, m.name) {
        NoMountFound(inits, m.name);
      }
    }
  }

  method ScanMounts(cs: seq<Container>, name: string) returns (r: Option<VolumeMount>)
    ensures r == FirstNamed(MountsOf(cs), name)
  {
    for i := 0 to |cs|
      invariant FirstNamed(MountsOf(cs), name) == FirstNamed(MountsOf(cs[i..]), name)
    {
      var ms := cs[i].mounts;
      FirstNamedConcat(ms, MountsOf(cs[i + 1..]), name);
      assert cs[i..][1..] == cs[i + 1..];
      for j := 0 to |ms|
        invariant FirstNamed(ms, name) == FirstNamed(ms[j..], name)
      {
        if ms[j].name == name {
          return Some(ms[j]);
        }
        assert ms[j..][1..] == ms[j + 1..];
      }
    }
    r := None;
  }

  /** findMount: the first mount of that name, searching containers before init containers. */
  method FindMount(leader: Candidate, name: string) returns (r: Option<VolumeMount>)
    ensures r == FirstNamed(LeaderMounts(leader), name)
    ensures r.Some? <==> HasMount(leader, name)
  {
    FirstNamedConcat(MountsOf(leader.spec.containers), MountsOf(leader.spec.initContainers), name);
    r := ScanMounts(leader.spec.containers, name);
    if r.None? {
      r := ScanMounts(leader.spec.initContainers, name);
    }
  }

  /** A sidekick mount that gives nothing but a name. */
  predicate NameOnly(m: VolumeMount) {
    !m.readOnly && m.mountPath == "" && m.subPath == "" && m.propagation.None? && m.subPathExpr == ""
  }

  predicate Resolvable(leader: Candidate, m: VolumeMount) {
    NameOnly(m) ==> HasMount(leader, m.name)
  }

  function ConvMount(leader: Candidate, m: VolumeMount): (r: VolumeMount)
    requires Resolvable(leader, m)
    ensures r.name == m.name
    ensures if NameOnly(m) then r in LeaderMounts(leader) else r == m
  {
    if NameOnly(m) then FirstNamed(LeaderMounts(leader), m.name).value else m
  }

  /** convContainer: mounts resolved one by one; the first unresolvable one is an error. */
  function ConvContainer(leader: Candidate, c: Container): Result<Container> {
    if forall m | m in c.mounts :: Resolvable(leader, m) then
      Ok(c.(mounts := seq(|c.mounts|, i requires 0 <= i < |c.mounts| => ConvMount(leader, c.mounts[i]))))
    else Err("missing volume mount")
  }

  method ConvContainerLoop(leader: Candidate, c: Container) returns (r: Result<Container>)
    ensures r == ConvContainer(leader, c)
  {
    var mounts: seq<VolumeMount> := [];
    for i := 0 to |c.mounts|
      invariant |mounts| == i
      invariant forall k | 0 <= k < i :: Resolvable(leader, c.mounts[k]) && mounts[k] == ConvMount(leader, c.mounts[k])
    {
      var m := c.mounts[i];
      if NameOnly(m) {
        var found := FindMount(leader, m.name);
        if found.None? {
          assert m in c.mounts && !Resolvable(leader, m);
          return Err("missing volume mount");
        }
        mounts := mounts + [found.value];
      } else {
        mounts := mounts + [m];
      }
    }
    forall m | m in c.mounts ensures Resolvable(leader, m) {
      var k :| 0 <= k < |c.mounts| && c.mounts[k] == m;
    }
    assert mounts == ConvContainer(leader, c).value.mounts;
    r := Ok(c.(mounts := mounts));
  }

  // --------------------------------------------------------------- volumes

  function VolumeNames(vs: seq<Volume>): set<string> {
    set v | v in vs :: v.name
  }

  lemma VolumeNamesCons(v: Volume, vs: seq<Volume>)
    ensures VolumeNames([v] + vs) == {v.name} + VolumeNames(vs)
  {
    var all := [v] + vs;
    assert forall x :: x in all <==> x == v || x in vs;
  }

  /** UpsertVolume for one volume: merge into the first volume of that name, else append. */
  function Upsert(vs: seq<Volume>, v: Volume): seq<Volume> {
    if vs == [] then [v]
    else if vs[0].name == v.name then [Volume(v.name, vs[0].layers + v.layers)] + vs[1..]
    else [vs[0]] + Upsert(vs[1..], v)
  }

  function UpsertAll(vs: seq<Volume>, more: seq<Volume>): seq<Volume>
    decreases more
  {
    if more == [] then vs else UpsertAll(Upsert(vs, more[0]), more[1..])
  }

  /** Every definition a list of volumes gives for one name, in order. */
  function LayersOf(vs: seq<Volume>, name: string): seq<string> {
    if vs == [] then [] else (if vs[0].name == name then vs[0].layers else []) + LayersOf(vs[1..], name)
  }

  /** No two volumes of the list share a name. */
  predicate DistinctNames(vs: seq<Volume>) {
    vs == [] || (vs[0].name !in VolumeNames(vs[1..]) && DistinctNames(vs[1..]))
  }

  lemma {:induction false} LayersOfAbsent(vs: seq<Volume>, name: string)
    requires name !in VolumeNames(vs)
    ensures LayersOf(vs, name) == []
  {
    if vs != [] {
      VolumeNamesCons(vs[0], vs[1..]);
      assert vs == [vs[0]] + vs[1..];
      LayersOfAbsent(vs[1..], name);
    }
  }

  lemma {:induction false} UpsertNames(vs: seq<Volume>, v: Volume)
    requires DistinctNames(vs)
    ensures DistinctNames(Upsert(vs, v))
    ensures VolumeNames(Upsert(vs, v)) == VolumeNames(vs) + {v.name}
  {
    if vs != [] {
      var rest := vs[1..];
      assert vs == [vs[0]] + rest;
      VolumeNamesCons(vs[0], rest);
      if vs[0].name == v.name {
        VolumeNamesCons(Volume(v.name, vs[0].layers + v.layers), rest);
      } else {
        UpsertNames(rest, v);
        VolumeNamesCons(vs[0], Upsert(rest, v));
      }
    }
  }

  lemma {:induction false} UpsertLayers(vs: seq<Volume>, v: Volume, name: string)
    requires DistinctNames(vs)
    ensures LayersOf(Upsert(vs, v), name) == LayersOf(vs, name) + (if v.name == name then v.layers else [])
  {
    if vs != [] {
      var rest := vs[1..];
      if vs[0].name == v.name {
        if name == v.name {
          LayersOfAbsent(rest, name);
        }
      } else {
        UpsertLayers(rest, v, name);
        assert Upsert(vs, v) == [vs[0]] + Upsert(rest, v) && Upsert(vs, v)[1..] == Upsert(rest, v);
      }
    }
  }

  lemma {:induction false} UpsertAllNames(vs: seq<Volume>, more: seq<Volume>)
    requires DistinctNames(vs)
    ensures DistinctNames(UpsertAll(vs, more))
    ensures VolumeNames(UpsertAll(vs, more)) == VolumeNames(vs) + VolumeNames(more)
    decreases more
  {
    if more != [] {
      VolumeNamesCons(more[0], more[1..]);
      assert more == [more[0]] + more[1..];
      UpsertNames(vs, more[0]);
      UpsertAllNames(Upsert(vs, more[0]), more[1..]);
    }
  }

  lemma {:induction false} UpsertAllLayers(vs: seq<Volume>, more: seq<Volume>, name: string)
    requires DistinctNames(vs)
    ensures LayersOf(UpsertAll(vs, more), name) == LayersOf(vs, name) + LayersOf(more, name)
    decreases more
  {
    if more != [] {
      UpsertNames(vs, more[0]);
      UpsertLayers(vs, more[0], name);
      UpsertAllLayers(Upsert(vs, more[0]), more[1..], name);
    }
  }

  predicate AnyMounts(cs: seq<Container>) {
    exists i :: 0 <= i < |cs| && |cs[i].mounts| > 0
  }

  /** listVolumes: nothing unless some container mounts something. */
  function ListVolumes(spec: SidekickSpec, leader: Candidate): seq<Volume> {
    if AnyMounts(spec.containers) || AnyMounts(spec.initContainers)
    then UpsertAll(UpsertAll([], spec.volumes), leader.spec.volumes)
    else []
  }

  method ListVolumesLoop(spec: SidekickSpec, leader: Candidate) returns (vols: seq<Volume>)
    ensures vols == ListVolumes(spec, leader)
  {
    vols := UpsertAll([], spec.volumes);
    for i := 0 to |spec.containers|
      invariant forall k | 0 <= k < i :: |spec.containers[k].mounts| == 0
    {
      if |spec.containers[i].mounts| > 0 {
        return UpsertAll(vols, leader.spec.volumes);
      }
    }
    for i := 0 to |spec.initContainers|
      invariant forall k | 0 <= k < i :: |spec.initContainers[k].mounts| == 0
    {
      if |spec.initContainers[i].mounts| > 0 {
        return UpsertAll(vols, leader.spec.volumes);
      }
    }
    vols := [];
  }

  /** The volumes of a pod that mounts anything: each name once, holding the Sidekick's
      definitions of it and then the leader's. */
  lemma ListVolumesMeaning(spec: SidekickSpec, leader: Candidate, name: string)
    requires AnyMounts(spec.containers) || AnyMounts(spec.initContainers)
    ensures DistinctNames(ListVolumes(spec, leader))
    ensures VolumeNames(ListVolumes(spec, leader)) == VolumeNames(spec.volumes) + VolumeNames(leader.spec.volumes)
    ensures LayersOf(ListVolumes(spec, leader), name)
            == LayersOf(spec.volumes, name) + LayersOf(leader.spec.volumes, name)
  {
    MergedNames(spec.volumes, leader.spec.volumes);
    MergedLayers(spec.volumes, leader.spec.volumes, name);
  }

  /** In a list that names each volume once, the definitions of a name are those of its volume. */
  lemma {:induction false} LayersOfMember(vs: seq<Volume>, i: nat)
    requires DistinctNames(vs) && i < |vs|
    ensures LayersOf(vs, vs[i].name) == vs[i].layers
  {
    if i == 0 {
      LayersOfAbsent(vs[1..], vs[0].name);
    } else {
      assert vs[1..][i - 1] == vs[i];
      LayersOfMember(vs[1..], i - 1);
    }
  }

  /** Nothing is listed for a pod that mounts nothing. */
  lemma NothingMounted(spec: SidekickSpec, leader: Candidate)
    requires forall i | 0 <= i < |spec.containers| :: spec.containers[i].mounts == []
    requires forall i | 0 <= i < |spec.initContainers| :: spec.initContainers[i].mounts == []
    ensures ListVolumes(spec, leader) == []
  {
  }

  lemma MergedNames(a: seq<Volume>, b: seq<Volume>)
    ensures var all := UpsertAll(UpsertAll([], a), b);
            DistinctNames(all) && VolumeNames(all) == VolumeNames(a) + VolumeNames(b)
  {
    UpsertAllNames([], a);
    UpsertAllNames(UpsertAll([], a), b);
  }

  lemma MergedLayers(a: seq<Volume>, b: seq<Volume>, name: string)
    ensures LayersOf(UpsertAll(UpsertAll([], a), b), name) == LayersOf(a, name) + LayersOf(b, name)
  {
    FirstLayers(a, name);
    UpsertAllLayers(UpsertAll([], a), b, name);
  }

  lemma FirstLayers(a: seq<Volume>, name: string)
    ensures DistinctNames(UpsertAll([], a)) && LayersOf(UpsertAll([], a), name) == LayersOf(a, name)
  {
    UpsertAllNames([], a);
    UpsertAllLayers([], a, name);
    assert LayersOf([], name) + LayersOf(a, name) == LayersOf(a, name);
  }

  // ----------------------------------------------------------------- pods

  function WithLeaderName(c: Container, leader: Candidate): Container {
    c.(env := c.env + [EnvVar(EnvLeaderName, Raw(leader.name))])
  }

  /** Convert each container; any failure fails the whole list. */
  function ConvAll(leader: Candidate, cs: seq<Container>, stamp: bool): Result<seq<Container>> {
    if cs == [] then Ok([])
    else
      var n := |cs| - 1;
      match ConvAll(leader, cs[..n], stamp)
      case Err(e) => Err(e)
      case Ok(done) =>
        match ConvContainer(leader, cs[n])
        case Err(e) => Err(e)
        case Ok(c) => Ok(done + [if stamp then WithLeaderName(c, leader) else c])
  }

  /** The spec of the pod newSidekickPod builds. */
  function BuildSpec(spec: SidekickSpec, leader: Candidate): Result<PodSpec> {
    match ConvAll(leader, spec.containers, true)
    case Err(e) => Err(e)
    case Ok(containers) =>
      match ConvAll(leader, spec.initContainers, false)
      case Err(e) => Err(e)
      case Ok(inits) => Ok(PodSpec(leader.spec.node, ListVolumes(spec, leader), containers, inits))
  }

  /** The loop over containers; `stamp` adds the leader's name to each. */
  method ConvAllLoop(leader: Candidate, cs: seq<Container>, stamp: bool) returns (r: Result<seq<Container>>)
    ensures r == ConvAll(leader, cs, stamp)
  {
    var done: seq<Container> := [];
    for i := 0 to |cs|
      invariant ConvAll(leader, cs[..i], stamp) == Ok(done)
    {
      assert cs[..i + 1][..i] == cs[..i];
      var c := ConvContainerLoop(leader, cs[i]);
      if c.Err? {
        ConvAllErr(leader, cs, stamp, i + 1);
        return Err(c.message);
      }
      done := done + [if stamp then WithLeaderName(c.value, leader) else c.value];
    }
    assert cs[..|cs|] == cs;
    r := Ok(done);
  }

  method BuildSpecLoop(spec: SidekickSpec, leader: Candidate) returns (r: Result<PodSpec>)
    ensures r == BuildSpec(spec, leader)
  {
    var vols := ListVolumesLoop(spec, leader);
    var containers := ConvAllLoop(leader, spec.containers, true);
    if containers.Err? {
      return Err(containers.message);
    }
    var inits := ConvAllLoop(leader, spec.initContainers, false);
    if inits.Err? {
      return Err(inits.message);
    }
    r := Ok(PodSpec(leader.spec.node, vols, containers.value, inits.value));
  }

  lemma {:induction false} ConvAllErr(leader: Candidate, cs: seq<Container>, stamp: bool, i: nat)
    requires i <= |cs| && ConvAll(leader, cs[..i], stamp).Err?
    ensures ConvAll(leader, cs, stamp) == ConvAll(leader, cs[..i], stamp)
  {
    if i == |cs| {
      assert cs[..i] == cs;
    } else {
      var n := |cs| - 1;
      assert cs[..n][..i] == cs[..i];
      ConvAllErr(leader, cs[..n], stamp, i);
    }
  }

  /** What a converted container keeps and changes. */
  predicate Converted(leader: Candidate, c: Container, r: Container, stamp: bool) {
    && r.name == c.name && r.rest == c.rest
    && r.env == (if stamp then c.env + [EnvVar(EnvLeaderName, Raw(leader.name))] else c.env)
    && |r.mounts| == |c.mounts|
    && forall j | 0 <= j < |c.mounts| ::
         && r.mounts[j].name == c.mounts[j].name
         && (if NameOnly(c.mounts[j]) then r.mounts[j] in LeaderMounts(leader) else r.mounts[j] == c.mounts[j])
  }

  predicate AllResolvable(leader: Candidate, cs: seq<Container>) {
    forall i, m | 0 <= i < |cs| && m in cs[i].mounts :: Resolvable(leader, m)
  }

  lemma {:induction false} ConvAllMeaning(leader: Candidate, cs: seq<Container>, stamp: bool)
    ensures ConvAll(leader, cs, stamp).Ok? <==> AllResolvable(leader, cs)
    ensures ConvAll(leader, cs, stamp).Ok? ==>
              && |ConvAll(leader, cs, stamp).value| == |cs|
              && forall i | 0 <= i < |cs| :: Converted(leader, cs[i], ConvAll(leader, cs, stamp).value[i], stamp)
  {
    if cs != [] {
      var n := |cs| - 1;
      ConvAllMeaning(leader, cs[..n], stamp);
      ResolvableLast(leader, cs);
      if forall m | m in cs[n].mounts :: Resolvable(leader, m) {
        ConvOneMeaning(leader, cs[n], stamp);
      }
    }
  }

  lemma ResolvableLast(leader: Candidate, cs: seq<Container>)
    requires cs != []
    ensures var n := |cs| - 1;
            AllResolvable(leader, cs)
            <==> AllResolvable(leader, cs[..n]) && forall m | m in cs[n].mounts :: Resolvable(leader, m)
  {
  }

  lemma ConvOneMeaning(leader: Candidate, c: Container, stamp: bool)
    requires forall m | m in c.mounts :: Resolvable(leader, m)
    ensures ConvContainer(leader, c).Ok?
    ensures var r := ConvContainer(leader, c).value;
            Converted(leader, c, if stamp then WithLeaderName(r, leader) else r, stamp)
  {
  }

  /** Building succeeds exactly when every name-only mount names a mount of the leader. A built
      pod sits on the leader's node; its containers are the Sidekick's in order, with mounts in
      order and under the same names, name-only ones being mounts of the leader, and every
      container (but no init container) told the leader's name. */
  lemma BuildMeaning(spec: SidekickSpec, leader: Candidate)
    ensures BuildSpec(spec, leader).Ok? <==>
            AllResolvable(leader, spec.containers) && AllResolvable(leader, spec.initContainers)
    ensures BuildSpec(spec, leader).Ok? ==>
              var pod := BuildSpec(spec, leader).value;
              && pod.node == leader.spec.node
              && |pod.containers| == |spec.containers| && |pod.initContainers| == |spec.initContainers|
              && (forall i | 0 <= i < |spec.containers| ::
                  Converted(leader, spec.containers[i], pod.containers[i], true))
              && (forall i | 0 <= i < |spec.initContainers| ::
                  Converted(leader, spec.initContainers[i], pod.initContainers[i], false))
  {
    ConvAllMeaning(leader, spec.containers, true);
    ConvAllMeaning(leader, spec.initContainers, false);
  }

  predicate MountsClosed(cs: seq<Container>, volumes: set<string>) {
    forall i, j | 0 <= i < |cs| && 0 <= j < |cs[i].mounts| :: cs[i].mounts[j].name in volumes
  }

  lemma ClosureOfConverted(leader: Candidate, cs: seq<Container>, built: seq<Container>, stamp: bool,
      volumes: set<string>)
    requires |built| == |cs|
    requires forall i | 0 <= i < |cs| :: Converted(leader, cs[i], built[i], stamp)
    ensures MountsClosed(built, volumes) <==> MountsClosed(cs, volumes)
  {
    if MountsClosed(built, volumes) {
      forall i, j | 0 <= i < |cs| && 0 <= j < |cs[i].mounts| ensures cs[i].mounts[j].name in volumes {
        assert Converted(leader, cs[i], built[i], stamp);
        assert built[i].mounts[j].name in volumes;
      }
    }
    if MountsClosed(cs, volumes) {
      forall i, j | 0 <= i < |built| && 0 <= j < |built[i].mounts| ensures built[i].mounts[j].name in volumes {
        assert Converted(leader, cs[i], built[i], stamp);
        assert cs[i].mounts[j].name in volumes;
      }
    }
  }

  /** Exactly when the pod's mounts are closed: every mount the Sidekick asks for names one of
      its own or one of the leader's volumes. */
  lemma MountClosureIff(spec: SidekickSpec, leader: Candidate)
    requires BuildSpec(spec, leader).Ok?
    ensures var pod := BuildSpec(spec, leader).value;
            var wanted := VolumeNames(spec.volumes) + VolumeNames(leader.spec.volumes);
            (&& MountsClosed(pod.containers, VolumeNames(pod.volumes))
             && MountsClosed(pod.initContainers, VolumeNames(pod.volumes)))
            <==> (MountsClosed(spec.containers, wanted) && MountsClosed(spec.initContainers, wanted))
  {
    BuildMeaning(spec, leader);
    var pod := BuildSpec(spec, leader).value;
    var vols := VolumeNames(pod.volumes);
    ClosureOfConverted(leader, spec.containers, pod.containers, true, vols);
    ClosureOfConverted(leader, spec.initContainers, pod.initContainers, false, vols);
    if AnyMounts(spec.containers) || AnyMounts(spec.initContainers) {
      ListVolumesMeaning(spec, leader, "");
    }
  }

  /** Mount closure: a leader whose mounts name its own volumes, and explicit sidekick mounts
      that name a volume of either, give a pod in which every mount names a volume of the pod. */
  lemma MountClosure(spec: SidekickSpec, leader: Candidate)
    requires BuildSpec(spec, leader).Ok?
    requires forall m | m in LeaderMounts(leader) :: m.name in VolumeNames(leader.spec.volumes)
    requires forall i, m | 0 <= i < |spec.containers| && m in spec.containers[i].mounts && !NameOnly(m) ::
               m.name in VolumeNames(spec.volumes) + VolumeNames(leader.spec.volumes)
    requires forall i, m | 0 <= i < |spec.initContainers| && m in spec.initContainers[i].mounts && !NameOnly(m) ::
               m.name in VolumeNames(spec.volumes) + VolumeNames(leader.spec.volumes)
    ensures var pod := BuildSpec(spec, leader).value;
            && MountsClosed(pod.containers, VolumeNames(pod.volumes))
            && MountsClosed(pod.initContainers, VolumeNames(pod.volumes))
  {
    BuildMeaning(spec, leader);
    MountClosureIff(spec, leader);
    ClosedByHypothesis(spec.containers, spec, leader);
    ClosedByHypothesis(spec.initContainers, spec, leader);
  }

  lemma ClosedByHypothesis(cs: seq<Container>, spec: SidekickSpec, leader: Candidate)
    requires AllResolvable(leader, cs)
    requires forall m | m in LeaderMounts(leader) :: m.name in VolumeNames(leader.spec.volumes)
    requires forall i, m | 0 <= i < |cs| && m in cs[i].mounts && !NameOnly(m) ::
               m.name in VolumeNames(spec.volumes) + VolumeNames(leader.spec.volumes)
    ensures MountsClosed(cs, VolumeNames(spec.volumes) + VolumeNames(leader.spec.volumes))
  {
    forall i, j | 0 <= i < |cs| && 0 <= j < |cs[i].mounts|
      ensures cs[i].mounts[j].name in VolumeNames(spec.volumes) + VolumeNames(leader.spec.volumes)
    {
      var m := cs[i].mounts[j];
      assert m in cs[i].mounts;
      assert Resolvable(leader, m);
      if NameOnly(m) {
        var l :| l in LeaderMounts(leader) && l.name == m.name;
      }
    }
  }
}
