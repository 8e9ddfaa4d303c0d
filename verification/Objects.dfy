/**
 Kubernetes objects as the agent sees them, the metadata that links a copy to its source, and the
 merge patch that carries a source change over to the copy.
 */
module Objects {
  import opened Options
  import opened MergePatches

  datatype NsName = NsName(namespace: string, name: string)

  /**
   An unstructured object. `runtime` stands for the server-managed metadata (uid, resourceVersion,
   generation, creationTimestamp, ownerReferences, managedFields, selfLink); `content` holds every
   top-level field besides apiVersion, kind and metadata.
   */
  datatype Object = Object(
    apiVersion: string,
    kind: string,
    id: NsName,
    labels: map<string, string>,
    annotations: map<string, string>,
    finalizers: set<string>,
    deleting: bool,
    runtime: map<string, Json>,
    content: map<string, Json>)

  const FINALIZER := "syncagent.kcp.io/cleanup"

  const CLUSTER_LABEL := "syncagent.kcp.io/remote-object-cluster"
  const NAMESPACE_HASH_LABEL := "syncagent.kcp.io/remote-object-namespace-hash"
  const NAME_HASH_LABEL := "syncagent.kcp.io/remote-object-name-hash"
  const AGENT_LABEL := "syncagent.kcp.io/agent-name"

  const NAMESPACE_ANNOTATION := "syncagent.kcp.io/remote-object-namespace"
  const NAME_ANNOTATION := "syncagent.kcp.io/remote-object-name"
  const PATH_ANNOTATION := "syncagent.kcp.io/remote-object-workspace-path"

  const CLAIMED_PREFIX := "claimed.internal.apis.kcp.io/"
  const RELATED_PREFIX := "related-resources.syncagent.kcp.io/"

  const UNSYNCABLE_LABELS := {CLUSTER_LABEL, NAMESPACE_HASH_LABEL, NAME_HASH_LABEL}

  const UNSYNCABLE_ANNOTATIONS := {
    "kcp.io/cluster",
    "kubectl.kubernetes.io/last-applied-configuration",
    "syncagent.kcp.io/deletion-propagation-policy",
    NAMESPACE_ANNOTATION,
    NAME_ANNOTATION,
    PATH_ANNOTATION
  }

  // ---------------------------------------------------------------- stripping

  predicate SyncableLabel(k: string) {
    k !in UNSYNCABLE_LABELS && !(CLAIMED_PREFIX <= k)
  }

  predicate SyncableAnnotation(k: string) {
    k !in UNSYNCABLE_ANNOTATIONS && !(RELATED_PREFIX <= k)
  }

  function SyncableLabels(m: map<string, string>): map<string, string> {
    map k | k in m && SyncableLabel(k) :: m[k]
  }

  function SyncableAnnotations(m: map<string, string>): map<string, string> {
    map k | k in m && SyncableAnnotation(k) :: m[k]
  }

  /** The object without server-managed and agent-managed metadata. */
  function Strip(o: Object): Object {
    o.(labels := SyncableLabels(o.labels),
    annotations := SyncableAnnotations(o.annotations),
    finalizers := {},
    runtime := map[])
  }

  /** What is remembered of a source: the stripped object without its subresources. */
  function Snapshot(o: Object, subresources: set<string>): Object {
    Strip(o).(content := o.content - subresources)
  }

  /** Nothing in this object needs stripping; all that the state store ever holds is of this form. */
  predicate Clean(o: Object) {
    && (forall k | k in o.labels :: SyncableLabel(k))
    && (forall k | k in o.annotations :: SyncableAnnotation(k))
    && o.finalizers == {}
    && o.runtime == map[]
  }

  lemma SnapshotClean(o: Object, subresources: set<string>)
    ensures Clean(Snapshot(o, subresources))
    ensures Clean(o) ==> Strip(o) == o
  {
    if Clean(o) {
      assert SyncableLabels(o.labels) == o.labels;
      assert SyncableAnnotations(o.annotations) == o.annotations;
    }
  }

  // ---------------------------------------------------------------- linking copy and source

  /** Identifies a source: its logical cluster, optional workspace path, namespace and name. */
  datatype ObjectKey = ObjectKey(cluster: string, path: string, id: NsName)

  type Hash = string -> string

  ghost predicate Injective(hash: Hash) {
    forall s, t :: hash(s) == hash(t) ==> s == t
  }

  function KeyLabels(hash: Hash, key: ObjectKey): map<string, string> {
    map[CLUSTER_LABEL := key.cluster, NAME_HASH_LABEL := hash(key.id.name)]
    + if key.id.namespace != "" then map[NAMESPACE_HASH_LABEL := hash(key.id.namespace)] else map[]
  }

  function KeyAnnotations(key: ObjectKey): map<string, string> {
    map[NAME_ANNOTATION := key.id.name]
    + (if key.id.namespace != "" then map[NAMESPACE_ANNOTATION := key.id.namespace] else map[])
    + (if key.path != "" then map[PATH_ANNOTATION := key.path] else map[])
  }

  /** A label selector made of equalities; also used for required annotations. */
  predicate Matches(m: map<string, string>, wanted: map<string, string>) {
    forall k | k in wanted :: k in m && m[k] == wanted[k]
  }

  /** The copy is found by the key's selector and names its source. */
  predicate Linked(hash: Hash, o: Object, key: ObjectKey) {
    Matches(o.labels, KeyLabels(hash, key)) && Matches(o.annotations, KeyAnnotations(key))
  }

  /** The entries of `want` that are missing from, or different in, `have`. */
  function Missing(have: map<string, string>, want: map<string, string>): map<string, string> {
    map k | k in want && !(k in have && have[k] == want[k]) :: want[k]
  }

  /** The stripped source, with those links added that the copy lacks. */
  function Repair(source: Object, dest: Object, labels: map<string, string>, annotations: map<string, string>): Object {
    source.(labels := source.labels + Missing(dest.labels, labels),
    annotations := source.annotations + Missing(dest.annotations, annotations))
  }

  /** The request that reconciles the source of a copy, unless the copy is badly labelled. */
  function RemoteName(o: Object): Option<(string, NsName)> {
    var cluster := Read(o.labels, CLUSTER_LABEL);
    var name := Read(o.annotations, NAME_ANNOTATION);
    if cluster == "" || name == "" then None
    else Some((cluster, NsName(Read(o.annotations, NAMESPACE_ANNOTATION), name)))
  }

  /** Reading a missing entry of a string map gives the empty string. */
  function Read(m: map<string, string>, k: string): string {
    if k in m then m[k] else ""
  }

  lemma LinkKeysUnsyncable(hash: Hash, key: ObjectKey)
    ensures forall k | k in KeyLabels(hash, key) :: !SyncableLabel(k)
    ensures forall k | k in KeyAnnotations(key) :: !SyncableAnnotation(k)
  {
  }

  lemma UnionAssociates(a: map<string, string>, b: map<string, string>, c: map<string, string>)
    ensures (a + b) + c == a + (b + c)
    ensures a + map[] == a
  {
  }

  /** Stamping the link entries over any others makes them match. */
  lemma StampMatches(have: map<string, string>, want: map<string, string>)
    ensures Matches(have + want, want)
    ensures forall k | k !in want :: Read(have + want, k) == Read(have, k)
  {
  }

  /** Stamped links, whatever other labels follow that do not belong to the link. */
  lemma StampedLabels(hash: Hash, have: map<string, string>, more: map<string, string>, key: ObjectKey)
    requires more.Keys <= {AGENT_LABEL}
    ensures Matches(have + (KeyLabels(hash, key) + more), KeyLabels(hash, key))
  {
    LinkKeysUnsyncable(hash, key);
    assert SyncableLabel(AGENT_LABEL);
    assert more.Keys !! KeyLabels(hash, key).Keys;
  }

  /** What is remembered does not depend on link repairs made to the source on the way. */
  lemma RepairInvisibleToSnapshot(hash: Hash, source: Object, dest: Object, key: ObjectKey, subresources: set<string>)
    ensures var repaired := Repair(Strip(source), dest, KeyLabels(hash, key), KeyAnnotations(key));
            Snapshot(repaired, subresources) == Snapshot(source, subresources)
  {
    LinkKeysUnsyncable(hash, key);
    RepairedLabelsStripped(source.labels, Missing(dest.labels, KeyLabels(hash, key)));
    RepairedAnnotationsStripped(source.annotations, Missing(dest.annotations, KeyAnnotations(key)));
  }

  lemma RepairedLabelsStripped(labels: map<string, string>, repairs: map<string, string>)
    requires forall k | k in repairs :: !SyncableLabel(k)
    ensures SyncableLabels(SyncableLabels(labels) + repairs) == SyncableLabels(labels)
  {
  }

  lemma RepairedAnnotationsStripped(annotations: map<string, string>, repairs: map<string, string>)
    requires forall k | k in repairs :: !SyncableAnnotation(k)
    ensures SyncableAnnotations(SyncableAnnotations(annotations) + repairs) == SyncableAnnotations(annotations)
  {
  }

  /** Among keys of one scope, the selector of a key matches no copy linked to another key. */
  lemma SelectorUnique(hash: Hash, labels: map<string, string>, k1: ObjectKey, k2: ObjectKey)
    requires Injective(hash)
    requires k1.id.namespace == "" <==> k2.id.namespace == ""
    requires Matches(labels, KeyLabels(hash, k1)) && Matches(labels, KeyLabels(hash, k2))
    ensures k1.cluster == k2.cluster && k1.id == k2.id
  {
    var l1, l2 := KeyLabels(hash, k1), KeyLabels(hash, k2);
    assert CLUSTER_LABEL in l1 && CLUSTER_LABEL in l2;
    assert NAME_HASH_LABEL in l1 && NAME_HASH_LABEL in l2;
    assert k1.id.namespace != "" ==> NAMESPACE_HASH_LABEL in l1 && NAMESPACE_HASH_LABEL in l2;
  }

  /** A linked copy leads back to its source; a cluster-scoped one only without a stray namespace. */
  lemma LinkRoundTrip(hash: Hash, o: Object, key: ObjectKey)
    requires Linked(hash, o, key)
    requires key.cluster != "" && key.id.name != ""
    ensures RemoteName(o) == Some((key.cluster, key.id))
            <==> (key.id.namespace == "" ==> Read(o.annotations, NAMESPACE_ANNOTATION) == "")
  {
    assert CLUSTER_LABEL in KeyLabels(hash, key);
    assert NAME_ANNOTATION in KeyAnnotations(key);
    if key.id.namespace != "" {
      assert NAMESPACE_ANNOTATION in KeyAnnotations(key);
    }
  }

  // ---------------------------------------------------------------- patching a copy

  /**
   Effect of the merge patch on labels or annotations. An empty map is left out of the encoded
   object, so a source that loses its last entry produces a patch that drops the whole map.
   */
  function PatchMap(dest: map<string, string>, last: map<string, string>, next: map<string, string>): map<string, string> {
    if last != map[] && next == map[] then map[]
    else (dest - (last.Keys - next.Keys)) + Missing(last, next)
  }

  function PatchContent(dest: map<string, Json>, last: map<string, Json>, next: map<string, Json>): map<string, Json> {
    map k | k in dest.Keys + next.Keys && ThreeWay(Lookup(dest, k), Lookup(last, k), Lookup(next, k)).Some? ::
      ThreeWay(Lookup(dest, k), Lookup(last, k), Lookup(next, k)).value
  }

  /** The copy after the patch from `last` to `next` has been applied to it. */
  function PatchObject(dest: Object, last: Object, next: Object, subresources: set<string>): Object {
    dest.(labels := PatchMap(dest.labels, last.labels, next.labels),
    annotations := PatchMap(dest.annotations, last.annotations, next.annotations),
    content := PatchContent(dest.content, last.content - subresources, next.content - subresources))
  }

  /** Whether the patch from `last` to `next` is non-empty. */
  predicate NeedsPatch(last: Object, next: Object, subresources: set<string>) {
    || last.labels != next.labels
    || last.annotations != next.annotations
    || last.content - subresources != next.content - subresources
  }

  // ---------------------------------------------------------------- the encoded form

  const RESERVED := {"apiVersion", "kind", "metadata"}

  function EncodeMap(m: map<string, string>): Option<Json> {
    if m == map[] then None else Some(Obj(map k | k in m :: Str(m[k])))
  }

  /** Encoded metadata other than labels and annotations. */
  function EncodeIdentity(o: Object): map<string, Json> {
    (o.runtime + map["name" := Str(o.id.name), "namespace" := Str(o.id.namespace), "deletionTimestamp" := Bool(o.deleting),
                     "finalizers" := Obj(map f | f in o.finalizers :: Null)])
    - {"labels", "annotations"}
  }

  function EncodeMeta(o: Object): Json {
    Obj(Store(Store(EncodeIdentity(o), "labels", EncodeMap(o.labels)), "annotations", EncodeMap(o.annotations)))
  }

  /** The JSON encoding of an object, without the given top-level fields. */
  function Encode(o: Object, without: set<string>): Option<Json> {
    Some(Obj((o.content - without - RESERVED)
             + map["apiVersion" := Str(o.apiVersion), "kind" := Str(o.kind), "metadata" := EncodeMeta(o)]))
  }

  /** The merge patch sent for a source change, or None when it would be the empty object. */
  function CreateMergePatch(last: Object, next: Object, subresources: set<string>): Option<Json> {
    Diff(Encode(last, subresources), Encode(next, subresources))
  }

  ghost predicate DenotesMap(j: Option<Json>, m: map<string, string>) {
    && (j.None? || IsObj(j))
    && forall k :: Field(j, k) == if k in m then Some(Str(m[k])) else None
  }

  /** The document is an encoding of the object; empty maps may be absent or empty. */
  ghost predicate Denotes(j: Option<Json>, o: Object) {
    var meta := Field(j, "metadata");
    && IsObj(j) && IsObj(meta)
    && Field(j, "apiVersion") == Some(Str(o.apiVersion))
    && Field(j, "kind") == Some(Str(o.kind))
    && DenotesMap(Field(meta, "labels"), o.labels)
    && DenotesMap(Field(meta, "annotations"), o.annotations)
    && (forall k | k !in {"labels", "annotations"} :: Field(meta, k) == Lookup(EncodeIdentity(o), k))
    && (forall k | k !in RESERVED :: Field(j, k) == Lookup(o.content, k))
  }

  /** Top-level fields never clash with the object's own apiVersion, kind and metadata. */
  predicate WellFormed(o: Object) {
    o.content.Keys !! RESERVED
  }

  /** Two versions of one source, as compared by the syncer: both clean, one identity. */
  predicate Comparable(last: Object, next: Object) {
    && last.apiVersion == next.apiVersion && last.kind == next.kind
    && EncodeIdentity(last) == EncodeIdentity(next)
    && WellFormed(last) && WellFormed(next)
  }

  lemma EncodeReads(o: Object, without: set<string>)
    ensures var j := Encode(o, without);
            && IsObj(j)
            && Field(j, "metadata") == Some(EncodeMeta(o))
            && Field(j, "apiVersion") == Some(Str(o.apiVersion))
            && Field(j, "kind") == Some(Str(o.kind))
    ensures forall k | k !in RESERVED :: Field(Encode(o, without), k) == Lookup(o.content - without, k)
  {
  }

  lemma EncodeMetaReads(o: Object)
    ensures Field(Some(EncodeMeta(o)), "labels") == EncodeMap(o.labels)
    ensures Field(Some(EncodeMeta(o)), "annotations") == EncodeMap(o.annotations)
    ensures forall k | k !in {"labels", "annotations"} :: Field(Some(EncodeMeta(o)), k) == Lookup(EncodeIdentity(o), k)
  {
    var i := EncodeIdentity(o);
    var l := Store(i, "labels", EncodeMap(o.labels));
    assert forall k | k != "labels" :: Lookup(l, k) == Lookup(i, k);
    assert Lookup(l, "labels") == EncodeMap(o.labels);
    var m := Store(l, "annotations", EncodeMap(o.annotations));
    assert forall k | k != "annotations" :: Lookup(m, k) == Lookup(l, k);
    assert Lookup(m, "annotations") == EncodeMap(o.annotations);
  }

  lemma EncodeDenotes(o: Object)
    ensures Denotes(Encode(o, {}), o)
  {
    EncodeReads(o, {});
    EncodeMetaReads(o);
    assert o.content - {} == o.content;
  }

  lemma PatchMapIsMergePatch(j: Option<Json>, dest: map<string, string>, last: map<string, string>, next: map<string, string>)
    requires DenotesMap(j, dest)
    ensures DenotesMap(ThreeWay(j, EncodeMap(last), EncodeMap(next)), PatchMap(dest, last, next))
  {
    var r := ThreeWay(j, EncodeMap(last), EncodeMap(next));
    if next != map[] {
      forall k
        ensures Field(r, k) == if k in PatchMap(dest, last, next) then Some(Str(PatchMap(dest, last, next)[k])) else None
      {
        ThreeWayField(j, EncodeMap(last), EncodeMap(next), k);
      }
    }
  }

  /** The metadata part of the patch: links and synced entries change, identity does not. */
  lemma PatchMetaIsMergePatch(m: Option<Json>, dest: Object, last: Object, next: Object)
    requires IsObj(m)
    requires DenotesMap(Field(m, "labels"), dest.labels) && DenotesMap(Field(m, "annotations"), dest.annotations)
    requires EncodeIdentity(last) == EncodeIdentity(next)
    ensures var r := ThreeWay(m, Some(EncodeMeta(last)), Some(EncodeMeta(next)));
            && IsObj(r)
            && DenotesMap(Field(r, "labels"), PatchMap(dest.labels, last.labels, next.labels))
            && DenotesMap(Field(r, "annotations"), PatchMap(dest.annotations, last.annotations, next.annotations))
            && forall k | k !in {"labels", "annotations"} :: Field(r, k) == Field(m, k)
  {
    var x, y := Some(EncodeMeta(last)), Some(EncodeMeta(next));
    EncodeMetaReads(last);
    EncodeMetaReads(next);
    ThreeWayField(m, x, y, "labels");
    ThreeWayField(m, x, y, "annotations");
    PatchMapIsMergePatch(Field(m, "labels"), dest.labels, last.labels, next.labels);
    PatchMapIsMergePatch(Field(m, "annotations"), dest.annotations, last.annotations, next.annotations);
    forall k | k !in {"labels", "annotations"}
      ensures Field(ThreeWay(m, x, y), k) == Field(m, k)
    {
      ThreeWayField(m, x, y, k);
      DiffEmptyIffEqual(Field(x, k), Field(y, k));
    }
  }

  lemma PatchContentReads(dest: map<string, Json>, last: map<string, Json>, next: map<string, Json>, k: string)
    ensures Lookup(PatchContent(dest, last, next), k) == ThreeWay(Lookup(dest, k), Lookup(last, k), Lookup(next, k))
  {
  }

  /**
   The patch computed from the encodings and applied to the encoded copy has exactly the effect of
   PatchObject.
   */
  lemma PatchObjectIsMergePatch(j: Option<Json>, dest: Object, last: Object, next: Object, subresources: set<string>)
    requires Denotes(j, dest) && Comparable(last, next)
    ensures Denotes(Apply(j, CreateMergePatch(last, next, subresources)), PatchObject(dest, last, next, subresources))
  {
    var x, y := Encode(last, subresources), Encode(next, subresources);
    var r := ThreeWay(j, x, y);
    var p := PatchObject(dest, last, next, subresources);
    EncodeReads(last, subresources);
    EncodeReads(next, subresources);
    ThreeWayField(j, x, y, "apiVersion");
    ThreeWayField(j, x, y, "kind");
    DiffEmptyIffEqual(Field(x, "apiVersion"), Field(y, "apiVersion"));
    DiffEmptyIffEqual(Field(x, "kind"), Field(y, "kind"));
    ThreeWayField(j, x, y, "metadata");
    PatchMetaIsMergePatch(Field(j, "metadata"), dest, last, next);
    forall k | k !in RESERVED
      ensures Field(r, k) == Lookup(p.content, k)
    {
      ThreeWayField(j, x, y, k);
      PatchContentReads(dest.content, last.content - subresources, next.content - subresources, k);
    }
  }

  /** The patch is empty exactly when NeedsPatch says so. */
  lemma PatchEmptyIffUnchanged(last: Object, next: Object, subresources: set<string>)
    requires Comparable(last, next)
    ensures CreateMergePatch(last, next, subresources).None? <==> !NeedsPatch(last, next, subresources)
  {
    var x, y := Encode(last, subresources), Encode(next, subresources);
    DiffEmptyIffEqual(x, y);
    EncodeReads(last, subresources);
    EncodeReads(next, subresources);
    if x == y {
      EncodeMetaReads(last);
      EncodeMetaReads(next);
      EncodeMapInjective(last.labels, next.labels);
      EncodeMapInjective(last.annotations, next.annotations);
      var a, b := last.content - subresources, next.content - subresources;
      forall k
        ensures Lookup(a, k) == Lookup(b, k)
      {
        if k !in RESERVED {
          assert Field(x, k) == Lookup(a, k) && Field(y, k) == Lookup(b, k);
        }
      }
      MapsAgree(a, b);
    }
    if !NeedsPatch(last, next, subresources) {
      EncodeMetaDepends(last, next);
      assert last.content - subresources - RESERVED == next.content - subresources - RESERVED;
    }
  }

  lemma EncodeMetaDepends(a: Object, b: Object)
    requires a.labels == b.labels && a.annotations == b.annotations && EncodeIdentity(a) == EncodeIdentity(b)
    ensures EncodeMeta(a) == EncodeMeta(b)
  {
  }

  lemma EncodeMapInjective(a: map<string, string>, b: map<string, string>)
    requires EncodeMap(a) == EncodeMap(b)
    ensures a == b
  {
    if a != map[] {
      var x, y := EncodeMap(a).value.fields, EncodeMap(b).value.fields;
      assert x.Keys == a.Keys && y.Keys == b.Keys;
      forall k | k in a
        ensures a[k] == b[k]
      {
        assert x[k] == Str(a[k]) && y[k] == Str(b[k]);
      }
    }
  }

  /** No subresource of the copy is ever touched by a patch, and nothing the source did not change. */
  lemma PatchLeavesOthers(dest: Object, last: Object, next: Object, subresources: set<string>, p: Path)
    requires p != []
    requires p[0] in subresources || forall q :: !Disturbs(Lookup(last.content, p[0]), Lookup(next.content, p[0]), q, p[1..])
    ensures var after := PatchObject(dest, last, next, subresources).content;
            At(Lookup(after, p[0]), p[1..]) == At(Lookup(dest.content, p[0]), p[1..])
  {
    var k := p[0];
    var a, b := last.content - subresources, next.content - subresources;
    if k in subresources {
      assert Lookup(a, k) == None && Lookup(b, k) == None;
    } else {
      assert Lookup(a, k) == Lookup(last.content, k) && Lookup(b, k) == Lookup(next.content, k);
      OthersKept(Lookup(dest.content, k), Lookup(a, k), Lookup(b, k), p[1..]);
    }
    assert Lookup(PatchContent(dest.content, a, b), k) == ThreeWay(Lookup(dest.content, k), Lookup(a, k), Lookup(b, k));
  }

  // ---------------------------------------------------------------- what patches do to links

  /** The source lost its last syncable entry, so the patch drops the whole map on the copy. */
  predicate Drops(last: map<string, string>, next: map<string, string>) {
    last != map[] && next == map[]
  }

  /**
   What a patch does to required entries, present or not: with the missing ones repaired on the way
   they are all there afterwards, unless the patch drops the whole map.
   */
  lemma RepairedEntries(dest: map<string, string>, last: map<string, string>, source: map<string, string>, want: map<string, string>)
    requires last.Keys !! want.Keys && source.Keys !! want.Keys
    requires !Drops(last, source + Missing(dest, want))
    ensures var after := PatchMap(dest, last, source + Missing(dest, want));
            && Matches(after, want)
            && forall k | k !in want && k !in last && k !in source :: Read(after, k) == Read(dest, k)
  {
    var next := source + Missing(dest, want);
    var after := PatchMap(dest, last, next);
    forall k | k in want
      ensures k in after && after[k] == want[k]
    {
      if k in Missing(dest, want) {
        assert k in next && k !in last;
        assert k in Missing(last, next) && Missing(last, next)[k] == want[k];
      }
    }
  }

  /**
   A patch keeps a required entry that is not itself subject to syncing, unless the map is dropped.
   */
  lemma PatchKeepsLinkEntries(dest: map<string, string>, last: map<string, string>, source: map<string, string>, wanted: map<string, string>)
    requires wanted != map[]
    requires last.Keys !! wanted.Keys && source.Keys !! wanted.Keys
    requires Matches(dest, wanted)
    ensures Matches(PatchMap(dest, last, source + Missing(dest, wanted)), wanted) <==> !Drops(last, source)
  {
    assert Missing(dest, wanted) == map[];
    assert source + Missing(dest, wanted) == source;
    if Drops(last, source) {
      var k :| k in wanted;
      assert k !in PatchMap(dest, last, source);
    }
  }

  /**
   A patch of a linked copy leaves it linked, except exactly when the source has just lost its last
   syncable label or its last syncable annotation: then the copy loses its links as well.
   */
  lemma PatchKeepsLinkIff(hash: Hash, dest: Object, last: Object, source: Object, key: ObjectKey, subresources: set<string>)
    requires Clean(last)
    requires Linked(hash, dest, key)
    ensures var next := Repair(Strip(source), dest, KeyLabels(hash, key), KeyAnnotations(key));
            Linked(hash, PatchObject(dest, last, next, subresources), key)
            <==> !Drops(last.labels, SyncableLabels(source.labels)) && !Drops(last.annotations, SyncableAnnotations(source.annotations))
  {
    LinkKeysUnsyncable(hash, key);
    assert CLUSTER_LABEL in KeyLabels(hash, key) && NAME_ANNOTATION in KeyAnnotations(key);
    PatchKeepsLinkEntries(dest.labels, last.labels, SyncableLabels(source.labels), KeyLabels(hash, key));
    PatchKeepsLinkEntries(dest.annotations, last.annotations, SyncableAnnotations(source.annotations), KeyAnnotations(key));
  }
}
