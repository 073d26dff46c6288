/**
 Stamping the generation hash when annotation and label maps are shared mutable objects. The hash
 is stored on the new pod, and the next reconcile compares it with the hash of the Sidekick as the
 API server stores it; so it must be taken before any write that the Sidekick shares.
 */
module Stamping {
  import opened Kube
  import opened Reconcile
  import opened Placement

  class AnnotationMap {
    var entries: Annotations

    constructor (m: Annotations)
      ensures entries == m
    {
      entries := m;
    }
  }

  class LabelMap {
    var entries: map<string, string>

    constructor (m: map<string, string>)
      ensures entries == m
    {
      entries := m;
    }
  }

  function AnnotationsIn(m: AnnotationMap?): Annotations
    reads m
  {
    if m == null then map[] else m.entries
  }

  function LabelsIn(m: LabelMap?): map<string, string>
    reads m
  {
    if m == null then map[] else m.entries
  }

  /** A Sidekick in memory: its maps are references, and may be nil. */
  class SidekickObject {
    var generation: int
    var labels: LabelMap?
    var annotations: AnnotationMap?

    /** What decoding a stored Sidekick gives: maps of its own, nil where there is no entry. */
    constructor (stored: Sidekick)
      ensures (labels != null ==> fresh(labels)) && (annotations != null ==> fresh(annotations))
      ensures Hash() == HashOf(stored)
      ensures AnnotationsIn(annotations) == stored.annotations && LabelsIn(labels) == stored.labels
    {
      generation := stored.generation;
      labels := null;
      annotations := null;
      new;
      if stored.labels != map[] {
        labels := new LabelMap(stored.labels);
      }
      if stored.annotations != map[] {
        annotations := new AnnotationMap(stored.annotations);
      }
    }

    /** meta.GenerationHash of the object as it is now. */
    function Hash(): Value
      reads this, labels, annotations
    {
      GenerationHash(generation, LabelsIn(labels), AnnotationsIn(annotations))
    }
  }

  /** The metadata of a pod in memory. */
  class PodObject {
    var labels: LabelMap?
    var annotations: AnnotationMap

    constructor (labels: LabelMap?, annotations: AnnotationMap)
      ensures this.labels == labels && this.annotations == annotations
    {
      this.labels, this.annotations := labels, annotations;
    }
  }

  /** newSidekickPod: the pod takes over the Sidekick's maps, and the stamps go into the shared one. */
  method StampLocal(sk: SidekickObject, leaderName: string) returns (pod: PodObject)
    modifies sk.annotations
    ensures pod.annotations.entries
            == old(AnnotationsIn(sk.annotations))[KeyHash := old(sk.Hash())][KeyLeader := Text(leaderName)]
    ensures sk.annotations != null ==> pod.annotations == sk.annotations
    ensures sk.annotations == null ==> fresh(pod.annotations)
    ensures pod.labels == sk.labels
  {
    var shared: AnnotationMap;
    if sk.annotations == null {
      shared := new AnnotationMap(map[]);
    } else {
      shared := sk.annotations;
    }
    pod := new PodObject(sk.labels, shared);
    pod.annotations.entries := pod.annotations.entries[KeyHash := sk.Hash()];
    pod.annotations.entries := pod.annotations.entries[KeyLeader := Text(leaderName)];
  }

  method MergeFresh(ours: AnnotationMap?, theirs: AnnotationMap?) returns (merged: AnnotationMap)
    ensures fresh(merged) && merged.entries == AnnotationsIn(ours) + AnnotationsIn(theirs)
  {
    merged := new AnnotationMap(map[]);
    merged.entries := AnnotationsIn(ours);
    merged.entries := merged.entries + AnnotationsIn(theirs);
  }

  /** The creation tail of ReconcileDistributedSidekick: the annotations are merged into a fresh map,
      and only after hashing is the label written into the map that the Sidekick shares. */
  method StampDistributed(sk: SidekickObject, name: string, leaderName: string, leader: AnnotationMap?)
      returns (pod: PodObject, work: LabelMap)
    modifies sk.labels
    ensures fresh(pod.annotations) && unchanged(sk) && (sk.annotations != null ==> unchanged(sk.annotations))
    ensures var merged := old(AnnotationsIn(sk.annotations)) + old(AnnotationsIn(leader));
            pod.annotations.entries == merged[KeyHash := old(sk.Hash())][KeyLeader := Text(leaderName)]
    ensures work.entries == old(LabelsIn(sk.labels))[SIDEKICK_LABEL := name]
    ensures sk.labels != null ==> work == sk.labels
  {
    var merged := MergeFresh(sk.annotations, leader);
    pod := new PodObject(sk.labels, merged);
    merged.entries := merged.entries[KeyHash := sk.Hash()];
    merged.entries := merged.entries[KeyLeader := Text(leaderName)];
    if sk.labels == null {
      work := new LabelMap(map[]);
    } else {
      work := sk.labels;
    }
    work.entries := work.entries[SIDEKICK_LABEL := name];
  }

  // ------------------------------------------------------------------ the next reconcile

  /** Local path: read the Sidekick, build its pod, read the unchanged Sidekick again. The stored hash
      is the expected one, and the annotations are those of the value model. */
  method LocalStampIsStable(stored: Sidekick, leader: Candidate) returns (annotations: Annotations, expected: Value)
    ensures annotations == StampedAnnotations(stored, leader)
    ensures expected == HashOf(stored) && Lookup(annotations, KeyHash) == expected
  {
    var sk := new SidekickObject(stored);
    var pod := StampLocal(sk, leader.name);
    annotations := pod.annotations.entries;
    var again := new SidekickObject(stored);
    expected := again.Hash();
  }

  /** Distributed path, in the same way, with the leader's annotations merged in. */
  method DistributedStampIsStable(stored: Sidekick, name: string, leader: Candidate)
      returns (annotations: Annotations, expected: Value)
    ensures annotations == MergedAnnotations(stored, leader)
    ensures expected == HashOf(stored) && Lookup(annotations, KeyHash) == expected
  {
    var sk := new SidekickObject(stored);
    var theirs := new AnnotationMap(leader.annotations);
    var pod, work := StampDistributed(sk, name, leader.name, theirs);
    annotations := pod.annotations.entries;
    var again := new SidekickObject(stored);
    expected := again.Hash();
  }

  // ------------------------------------------------------------------ why the order and the fresh map matter

  /** The same annotations, the last-applied one aside. */
  ghost predicate SameAnnotations(a: Annotations, b: Annotations) {
    forall k | k != KeyLastApplied :: (k in a <==> k in b) && (k in a && k in b ==> a[k] == b[k])
  }

  lemma SameAnnotationsIff(a: Annotations, b: Annotations)
    ensures a - {KeyLastApplied} == b - {KeyLastApplied} <==> SameAnnotations(a, b)
  {
    var x, y := a - {KeyLastApplied}, b - {KeyLastApplied};
    if x == y {
      forall k | k != KeyLastApplied ensures (k in a <==> k in b) && (k in a && k in b ==> a[k] == b[k]) {
        assert (k in x <==> k in a) && (k in y <==> k in b);
        assert k in x ==> x[k] == a[k] && y[k] == b[k];
      }
    }
  }

  /** Two hashes agree exactly when generation, labels and annotations do, the last-applied one aside, and
      either both or none has annotations at all. */
  lemma HashIff(g: int, l: map<string, string>, a: Annotations, g': int, l': map<string, string>, b: Annotations)
    ensures GenerationHash(g, l, a) == GenerationHash(g', l', b)
            <==> g == g' && l == l' && (a == map[] <==> b == map[]) && SameAnnotations(a, b)
  {
    SameAnnotationsIff(a, b);
    assert |a| == 0 <==> a == map[];
    assert |b| == 0 <==> b == map[];
  }

  /** A hash taken after one more annotation agrees exactly when that annotation was there already. */
  lemma HashAfterWriteIff(generation: int, labels: map<string, string>, a: Annotations, k: Key, v: Value)
    requires k != KeyLastApplied
    ensures GenerationHash(generation, labels, a[k := v]) == GenerationHash(generation, labels, a)
            <==> k in a && a[k] == v
  {
    var b := a[k := v];
    assert k in b - {KeyLastApplied} && (b - {KeyLastApplied})[k] == v;
    if k in a && a[k] == v {
      assert b == a;
    }
  }

  /** If the leader's annotations were merged into the Sidekick's own map before hashing, the hash
      would agree exactly when they add nothing to it. */
  lemma HashAfterMergeIff(generation: int, labels: map<string, string>, a: Annotations, b: Annotations)
    requires KeyLastApplied !in b
    ensures GenerationHash(generation, labels, a + b) == GenerationHash(generation, labels, a)
            <==> forall k | k in b :: k in a && a[k] == b[k]
  {
    var all, mine := (a + b) - {KeyLastApplied}, a - {KeyLastApplied};
    if forall k | k in b :: k in a && a[k] == b[k] {
      assert a + b == a;
    } else {
      var k :| k in b && !(k in a && a[k] == b[k]);
      assert k in all && all[k] == b[k];
      assert k in mine ==> mine[k] == a[k];
      assert all != mine;
    }
  }

  /** If the label were written before hashing, the hash would agree exactly when it was there already. */
  lemma HashAfterLabelIff(generation: int, labels: map<string, string>, a: Annotations, name: string)
    ensures GenerationHash(generation, labels[SIDEKICK_LABEL := name], a) == GenerationHash(generation, labels, a)
            <==> SIDEKICK_LABEL in labels && labels[SIDEKICK_LABEL] == name
  {
    var l := labels[SIDEKICK_LABEL := name];
    assert SIDEKICK_LABEL in l && l[SIDEKICK_LABEL] == name;
    if SIDEKICK_LABEL in labels && labels[SIDEKICK_LABEL] == name {
      assert l == labels;
    }
  }
}
