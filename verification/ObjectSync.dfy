/**
 One synchronization of a source object onto its destination copy, in client-side merge mode, as a
 function of what the API servers hold, what the caller has read, and which API calls fail.
 */
module ObjectSync {
  import opened Options
  import opened MergePatches
  import opened Objects

  /** What the state store holds for a source: a snapshot, or data that does not decode. */
  datatype Blob = Known(last: Object) | Garbage

  /** Every API call a synchronization may issue; each is issued at most once per call of Sync. */
  datatype Call =
    | ReadState | Mutate | MakeDest
    | MakeNamespace | PatchFinalizer | CreateDest | AdoptDest | RestampDest
    | PatchDest | UpdateDest | DeleteDest | PutState
    | DestStatus | SourceStatus

  datatype Policy = Background | Foreground | OrphanDependents

  /** Mutation rules for the source's content and for the destination's status. */
  datatype Mutator = Mutator(spec: (Object, Object) -> Object, status: (Object, Object) -> Object)

  datatype Config = Config(
    hash: Hash,
    cluster: string,
    path: string,
    agentName: string,
    subresources: set<string>,
    statusBack: bool,
    statusForward: bool,
    blockDeletion: bool,
    linkDest: bool,
    destLabels: map<string, string>,
    destAnnotations: map<string, string>,
    mutator: Option<Mutator>,
    forceDelete: bool,
    policy: Policy,
    // where and as what type the copy is created
    destId: NsName,
    destApiVersion: string,
    destKind: string,
    // whether the destination API has a status endpoint, and what its server does to written content
    destHasStatus: bool,
    admit: map<string, Json> -> map<string, Json>)

  /** The server-side state one synchronization can see or change. */
  datatype World = World(
    source: Option<Object>,
    dests: map<NsName, Object>,
    namespaces: set<string>,
    state: Option<Blob>)

  datatype Result = Done | Requeue | Failed

  /** `log` lists the write calls that took effect, in order. */
  datatype Outcome = Outcome(world: World, log: seq<Call>, result: Result)

  function KeyOf(c: Config, o: Object): ObjectKey {
    ObjectKey(c.cluster, c.path, o.id)
  }

  // ---------------------------------------------------------------- API server behaviour

  function PolicyFinalizers(policy: Policy): set<string> {
    match policy
    case Background => {}
    case Foreground => {"foregroundDeletion"}
    case OrphanDependents => {"orphan"}
  }

  /** Deleting an object removes it at once, or marks it while finalizers are left. */
  function Deleted(o: Object, policy: Policy): Option<Object> {
    var fs := o.finalizers + PolicyFinalizers(policy);
    if fs == {} then None else Some(o.(finalizers := fs, deleting := true))
  }

  /** Finalizers cannot be added during deletion; removing the last one completes the deletion. */
  function FinalizersAccepted(o: Object, fs: set<string>): bool {
    o.deleting ==> fs <= o.finalizers
  }

  function WithFinalizers(o: Object, fs: set<string>): Option<Object> {
    if o.deleting && fs == {} then None else Some(o.(finalizers := fs))
  }

  // ---------------------------------------------------------------- deletion

  function PatchFinalizers(w: World, fs: set<string>, f: set<Call>): Outcome {
    if PatchFinalizer in f || w.source.None? || !FinalizersAccepted(w.source.value, fs) then
      Outcome(w, [], Failed)
    else
      Outcome(w.(source := WithFinalizers(w.source.value, fs)), [PatchFinalizer], Requeue)
  }

  function DeleteCopy(c: Config, w: World, id: NsName, f: set<Call>): Outcome {
    if DeleteDest in f || id !in w.dests then Outcome(w, [], Failed)
    else Outcome(w.(dests := Store(w.dests, id, Deleted(w.dests[id], c.policy))), [DeleteDest], Requeue)
  }

  function HandleDeletion(c: Config, w: World, src: Object, dst: Option<Object>, f: set<Call>): Outcome {
    if !c.blockDeletion then
      Outcome(w, [], Done)
    else if dst.Some? then
      if dst.value.deleting then Outcome(w, [], Requeue) else DeleteCopy(c, w, dst.value.id, f)
    else if FINALIZER in src.finalizers then
      PatchFinalizers(w, src.finalizers - {FINALIZER}, f)
    else
      Outcome(w, [], Done)
  }

  // ---------------------------------------------------------------- creation and adoption

  function AgentLabels(c: Config): map<string, string> {
    if c.agentName != "" then map[AGENT_LABEL := c.agentName] else map[]
  }

  /** The copy as it is sent to the API server for creation. */
  function DesiredCopy(c: Config, s: Object): Object {
    var o := Strip(s.(apiVersion := c.destApiVersion, kind := c.destKind, id := c.destId));
    var linkLabels := if c.linkDest then KeyLabels(c.hash, KeyOf(c, s)) + AgentLabels(c) else map[];
    var linkAnnotations := if c.linkDest then KeyAnnotations(KeyOf(c, s)) else map[];
    o.(labels := o.labels + linkLabels + c.destLabels,
    annotations := o.annotations + linkAnnotations + c.destAnnotations)
  }

  /** An existing object that is taken over as the copy: only its links and labels are set. */
  function Adopted(c: Config, s: Object, existing: Object): Object {
    existing.(labels := existing.labels + KeyLabels(c.hash, KeyOf(c, s)) + AgentLabels(c) + c.destLabels,
    annotations := existing.annotations + KeyAnnotations(KeyOf(c, s)) + c.destAnnotations)
  }

  function EnsureNamespace(c: Config, w: World, f: set<Call>): Outcome {
    var ns := c.destId.namespace;
    if ns == "" || ns in w.namespaces then Outcome(w, [], Done)
    else if MakeNamespace in f then Outcome(w, [], Failed)
    else Outcome(w.(namespaces := w.namespaces + {ns}), [MakeNamespace], Done)
  }

  /** Creates the copy or, when its name is taken, adopts the object that has it. */
  function PlaceCopy(c: Config, w: World, s: Object, f: set<Call>): Outcome {
    if CreateDest in f then
      Outcome(w, [], Failed)
    else if c.destId !in w.dests then
      var o := DesiredCopy(c, s);
      Outcome(w.(dests := w.dests[c.destId := o.(content := c.admit(o.content))]), [CreateDest], Requeue)
    else if AdoptDest in f then
      Outcome(w, [], Failed)
    else
      Outcome(w.(dests := w.dests[c.destId := Adopted(c, s, w.dests[c.destId])]), [AdoptDest], Requeue)
  }

  function PutSnapshot(c: Config, w: World, s: Object, f: set<Call>): Outcome {
    if PutState in f then Outcome(w, [], Failed)
    else Outcome(w.(state := Some(Known(Snapshot(s, c.subresources)))), [PutState], Requeue)
  }

  /** Continues with a second step unless the first one failed. */
  function Then(first: Outcome, second: Outcome): Outcome {
    if first.result.Failed? then first else second.(log := first.log + second.log)
  }

  function EnsureDestination(c: Config, w: World, s: Object, f: set<Call>): Outcome {
    if MakeDest in f then Outcome(w, [], Failed)
    else
      var made := EnsureNamespace(c, w, f);
      var placed := Then(made, PlaceCopy(c, made.world, s, f));
      Then(placed, PutSnapshot(c, placed.world, s, f))
  }

  // ---------------------------------------------------------------- content

  predicate NeedsRestamp(c: Config, d: Object) {
    !Matches(d.labels, c.destLabels) || !Matches(d.annotations, c.destAnnotations)
  }

  function Restamp(c: Config, w: World, d: Object, f: set<Call>): Outcome {
    if RestampDest in f || d.id !in w.dests then Outcome(w, [], Failed)
    else
      var o := w.dests[d.id];
      var stamped := o.(labels := o.labels + Missing(d.labels, c.destLabels),
      annotations := o.annotations + Missing(d.annotations, c.destAnnotations));
      Outcome(w.(dests := w.dests[d.id := stamped]), [RestampDest], Requeue)
  }

  /** The last known state, made comparable to the source by ignoring differences in type. */
  function Base(last: Object, s: Object): Object {
    last.(apiVersion := s.apiVersion, kind := s.kind)
  }

  /** The source state to be carried over, including links that the copy has lost. */
  function Revision(c: Config, s: Object, d: Object): Object {
    if c.linkDest then Repair(Strip(s), d, KeyLabels(c.hash, KeyOf(c, s)), KeyAnnotations(KeyOf(c, s)))
    else Strip(s)
  }

  predicate HasBase(w: World) {
    w.state.Some? && w.state.value.Known?
  }

  predicate PatchPending(c: Config, w: World, s: Object, d: Object)
    requires HasBase(w)
  {
    NeedsPatch(Base(w.state.value.last, s), Revision(c, s, d), c.subresources)
  }

  function PatchCopy(c: Config, w: World, s: Object, d: Object, f: set<Call>): Outcome
    requires HasBase(w)
  {
    if PatchDest in f || d.id !in w.dests then Outcome(w, [], Failed)
    else
      var o := PatchObject(w.dests[d.id], Base(w.state.value.last, s), Revision(c, s, d), c.subresources);
      Outcome(w.(dests := w.dests[d.id := o.(content := c.admit(o.content))]), [PatchDest], Requeue)
  }

  /** Without a last known state, all synced fields are written over whatever the copy holds. */
  function FullUpdate(c: Config, s: Object, d: Object): Object {
    d.(labels := d.labels + SyncableLabels(s.labels),
    annotations := d.annotations + SyncableAnnotations(s.annotations),
    content := d.content + (s.content - c.subresources))
  }

  /** `read` is the copy as fetched; the update is refused when it has changed since. */
  function UpdateCopy(c: Config, w: World, s: Object, read: Object, d: Object, f: set<Call>): Outcome {
    if UpdateDest in f || Lookup(w.dests, d.id) != Some(read) then Outcome(w, [], Failed)
    else
      var o := FullUpdate(c, s, d);
      Outcome(w.(dests := w.dests[d.id := o.(content := c.admit(o.content))]), [UpdateDest], Requeue)
  }

  /** Writes the source's desired state onto the copy: as a patch, or in full when no base is known. */
  function WriteSpec(c: Config, w: World, s: Object, read: Object, d: Object, f: set<Call>): Outcome {
    if HasBase(w) then PatchCopy(c, w, s, d, f) else UpdateCopy(c, w, s, read, d, f)
  }

  function SyncSpec(c: Config, w: World, s: Object, read: Object, d: Object, f: set<Call>): Outcome {
    if ReadState in f then
      Outcome(w, [], Failed)
    else if HasBase(w) && !PatchPending(c, w, s, d) then
      Outcome(w, [], Done)
    else
      var written := WriteSpec(c, w, s, read, d, f);
      Then(written, PutSnapshot(c, written.world, if HasBase(w) then Revision(c, s, d) else Strip(s), f))
  }

  function StatusOf(o: Object): Option<Json> {
    Lookup(o.content, "status")
  }

  function WithStatus(o: Object, status: Option<Json>): Object {
    o.(content := Store(o.content, "status", status))
  }

  /** Source status onto the copy; `current` is the copy as last answered by its server. */
  function StatusForward(c: Config, w: World, s: Object, current: Object, shown: Object, f: set<Call>): Outcome {
    if !c.statusForward || StatusOf(s) == StatusOf(shown) then
      Outcome(w, [], Done)
    else if DestStatus in f then
      Outcome(w, [], Failed)
    else if !c.destHasStatus || current.id !in w.dests then
      Outcome(w, [], Done)
    else if w.dests[current.id] != current then
      Outcome(w, [], Failed)
    else
      Outcome(w.(dests := w.dests[current.id := WithStatus(current, StatusOf(s))]), [DestStatus], Done)
  }

  /** Copy status back onto the source. */
  function StatusBack(c: Config, w: World, src: Object, s: Object, d: Object, f: set<Call>): Outcome {
    if !c.statusBack || StatusOf(s) == StatusOf(d) then
      Outcome(w, [], Done)
    else if SourceStatus in f || "status" !in c.subresources || w.source != Some(src) then
      Outcome(w, [], Failed)
    else
      Outcome(w.(source := Some(WithStatus(src, StatusOf(d)))), [SourceStatus], Done)
  }

  /** The status part, given how the desired state was synchronized. */
  function SyncStatus(c: Config, spec: Outcome, src: Object, s: Object, read: Object, d: Object, f: set<Call>): Outcome {
    if spec.result.Failed? then spec
    else
      var rewritten := spec.result.Requeue? && d.id in spec.world.dests;
      var current := if rewritten then spec.world.dests[d.id] else read;
      var shown := if rewritten then spec.world.dests[d.id] else d;
      var forward := Then(spec, StatusForward(c, spec.world, s, current, shown, f));
      if forward.result.Failed? then forward
      else if spec.result.Requeue? then forward.(result := Requeue)
      else Then(forward, StatusBack(c, forward.world, src, s, shown, f))
  }

  function SyncContents(c: Config, w: World, src: Object, s: Object, read: Object, d: Object, f: set<Call>): Outcome {
    SyncStatus(c, SyncSpec(c, w, s, read, d, f), src, s, read, d, f)
  }

  // ---------------------------------------------------------------- the synchronization

  function MutatedSource(c: Config, src: Object, dst: Option<Object>): Object {
    if c.mutator.None? then src
    else
      var d := if dst.Some? then dst.value else src.(apiVersion := c.destApiVersion, kind := c.destKind, id := c.destId);
      c.mutator.value.spec(src, d)
  }

  function MutatedDest(c: Config, s: Object, d: Object): Object {
    if c.mutator.None? then d else c.mutator.value.status(d, s)
  }

  /** Synchronizes the source as read onto its copy as read. */
  function Sync(c: Config, w: World, src: Object, dst: Option<Object>, f: set<Call>): Outcome {
    if src.deleting || c.forceDelete then
      HandleDeletion(c, w, src, dst, f)
    else if c.blockDeletion && FINALIZER !in src.finalizers then
      PatchFinalizers(w, src.finalizers + {FINALIZER}, f)
    else if c.mutator.Some? && Mutate in f then
      Outcome(w, [], Failed)
    else
      var s := MutatedSource(c, src, dst);
      if dst.None? then EnsureDestination(c, w, s, f)
      else
        var d := MutatedDest(c, s, dst.value);
        if d.deleting then Outcome(w, [], Done)
        else if NeedsRestamp(c, d) then Restamp(c, w, d, f)
        else SyncContents(c, w, src, s, dst.value, d, f)
  }

  // ---------------------------------------------------------------- what can be relied on

  /** Mutation rules change content, not metadata, and leave an object an object. */
  ghost predicate ContentOnly(m: Option<Mutator>) {
    m.Some? ==> forall x, y ::
      && m.value.spec(x, y) == x.(content := m.value.spec(x, y).content)
      && m.value.status(x, y) == x.(content := m.value.status(x, y).content)
      && (WellFormed(x) ==> WellFormed(m.value.spec(x, y)))
  }

  /** The remembered object is a snapshot of the object with this name, taken while it was alive. */
  predicate Remembers(last: Object, id: NsName) {
    Clean(last) && last.id == id && !last.deleting && WellFormed(last)
  }

  predicate BlobOk(b: Option<Blob>, id: NsName) {
    b.Some? && b.value.Known? ==> Remembers(b.value.last, id)
  }

  // ---------------------------------------------------------------- requeue honesty

  const STATUS_CALLS: set<Call> := {DestStatus, SourceStatus}

  /** The objects apart from their status. */
  function ButStatus(o: Object): Object {
    o.(content := o.content - {"status"})
  }

  function StoreButStatus(m: map<NsName, Object>): map<NsName, Object> {
    map id | id in m :: ButStatus(m[id])
  }

  predicate OnlyStatusChanged(w: World, w': World) {
    && w'.source.Some? == w.source.Some?
    && (w.source.Some? ==> ButStatus(w'.source.value) == ButStatus(w.source.value))
    && StoreButStatus(w'.dests) == StoreButStatus(w.dests)
    && w'.namespaces == w.namespaces
    && w'.state == w.state
  }

  lemma WithStatusButStatus(o: Object, status: Option<Json>)
    ensures ButStatus(WithStatus(o, status)) == ButStatus(o)
  {
  }

  lemma StoreWithStatus(m: map<NsName, Object>, id: NsName, status: Option<Json>)
    requires id in m
    ensures StoreButStatus(m[id := WithStatus(m[id], status)]) == StoreButStatus(m)
  {
    WithStatusButStatus(m[id], status);
  }

  /**
   A synchronization that reports completion, on whatever path, has issued no write other than
   status updates and has changed nothing but status.
   */
  lemma RequeueHonesty(c: Config, w: World, src: Object, dst: Option<Object>, f: set<Call>)
    requires Sync(c, w, src, dst, f).result.Done?
    ensures var o := Sync(c, w, src, dst, f);
            && (forall call | call in o.log :: call in STATUS_CALLS)
            && OnlyStatusChanged(w, o.world)
  {
    if !(src.deleting || c.forceDelete) && dst.Some? {
      var s := MutatedSource(c, src, dst);
      var d := MutatedDest(c, s, dst.value);
      if !d.deleting && !NeedsRestamp(c, d) {
        ContentsHonest(c, w, src, s, dst.value, d, f);
      }
    }
  }

  lemma ContentsHonest(c: Config, w: World, src: Object, s: Object, read: Object, d: Object, f: set<Call>)
    requires SyncContents(c, w, src, s, read, d, f).result.Done?
    ensures var o := SyncContents(c, w, src, s, read, d, f);
            && (forall call | call in o.log :: call in STATUS_CALLS)
            && OnlyStatusChanged(w, o.world)
  {
    var spec := SyncSpec(c, w, s, read, d, f);
    assert spec.result.Done? && spec == Outcome(w, [], Done);
    var fwd := StatusForward(c, w, s, read, d, f);
    if read.id in w.dests {
      StoreWithStatus(w.dests, read.id, StatusOf(s));
    }
    assert OnlyStatusChanged(w, fwd.world);
    WithStatusButStatus(src, StatusOf(d));
  }

  lemma SpecRequeueStores(c: Config, w: World, s: Object, read: Object, d: Object, f: set<Call>)
    ensures SyncSpec(c, w, s, read, d, f).result.Requeue? ==> PutState in SyncSpec(c, w, s, read, d, f).log
    ensures EnsureDestination(c, w, s, f).result.Requeue? ==> PutState in EnsureDestination(c, w, s, f).log
  {
  }

  lemma StatusKeepsLog(c: Config, spec: Outcome, src: Object, s: Object, read: Object, d: Object, f: set<Call>)
    ensures var o := SyncStatus(c, spec, src, s, read, d, f);
            && (forall call | call in spec.log :: call in o.log)
            && (o.result.Requeue? ==> spec.result.Requeue?)
  {
  }

  /** Conversely, a requeue means that something else was written, or that a copy is still going away. */
  lemma RequeueReason(c: Config, w: World, src: Object, dst: Option<Object>, f: set<Call>)
    requires Sync(c, w, src, dst, f).result.Requeue?
    ensures var log := Sync(c, w, src, dst, f).log;
            || (exists call | call in log :: call !in STATUS_CALLS)
            || ((src.deleting || c.forceDelete) && dst.Some? && dst.value.deleting)
  {
    var o := Sync(c, w, src, dst, f);
    var s := MutatedSource(c, src, dst);
    if src.deleting || c.forceDelete || (c.blockDeletion && FINALIZER !in src.finalizers) {
      if o.log != [] {
        assert o.log[0] in o.log && o.log[0] !in STATUS_CALLS;
      }
    } else if dst.None? {
      SpecRequeueStores(c, w, s, src, src, f);
    } else {
      var d := MutatedDest(c, s, dst.value);
      if NeedsRestamp(c, d) {
        assert RestampDest in o.log && RestampDest !in STATUS_CALLS;
      } else {
        SpecRequeueStores(c, w, s, dst.value, d, f);
        StatusKeepsLog(c, SyncSpec(c, w, s, dst.value, d, f), src, s, dst.value, d, f);
      }
    }
  }

  // ---------------------------------------------------------------- what the smaller writes achieve

  /** A restamped copy carries all stamps, so that the next pass goes on to its content; nothing else changed. */
  lemma RestampCompletes(c: Config, w: World, d: Object, f: set<Call>)
    requires Lookup(w.dests, d.id) == Some(d) && Restamp(c, w, d, f).result.Requeue?
    ensures var o := Restamp(c, w, d, f).world.dests;
            && o.Keys == w.dests.Keys && (forall x | x in o && x != d.id :: o[x] == w.dests[x])
            && !NeedsRestamp(c, o[d.id])
            && o[d.id] == d.(labels := o[d.id].labels, annotations := o[d.id].annotations)
            && (forall k | k !in c.destLabels :: Lookup(o[d.id].labels, k) == Lookup(d.labels, k))
            && (forall k | k !in c.destAnnotations :: Lookup(o[d.id].annotations, k) == Lookup(d.annotations, k))
  {
    MissingCompletes(d.labels, c.destLabels);
    MissingCompletes(d.annotations, c.destAnnotations);
  }

  lemma MissingCompletes(have: map<string, string>, want: map<string, string>)
    ensures Matches(have + Missing(have, want), want)
    ensures forall k | k !in want :: Lookup(have + Missing(have, want), k) == Lookup(have, k)
  {
  }

  lemma WrittenSpecKept(c: Config, w: World, s: Object, d: Object, f: set<Call>)
    requires Lookup(w.dests, d.id) == Some(d) && !SyncSpec(c, w, s, d, d, f).result.Failed?
    ensures var o := SyncSpec(c, w, s, d, d, f);
            && d.id in o.world.dests && o.world.dests[d.id].id == d.id
            && (o.result.Done? ==> o.world.dests == w.dests)
  {
  }

  /** With forward status sync, a pass that does not fail leaves the source's status on the copy. */
  lemma StatusForwarded(c: Config, w: World, src: Object, s: Object, d: Object, f: set<Call>)
    requires c.statusForward && !c.statusBack && c.destHasStatus
    requires Lookup(w.dests, d.id) == Some(d) && !SyncContents(c, w, src, s, d, d, f).result.Failed?
    ensures var o := SyncContents(c, w, src, s, d, d, f).world;
            d.id in o.dests && StatusOf(o.dests[d.id]) == StatusOf(s)
  {
    WrittenSpecKept(c, w, s, d, f);
    ForwardedFrom(c, SyncSpec(c, w, s, d, d, f), src, s, d, d, f);
  }

  lemma ForwardedFrom(c: Config, spec: Outcome, src: Object, s: Object, read: Object, d: Object, f: set<Call>)
    requires c.statusForward && !c.statusBack && c.destHasStatus && !spec.result.Failed?
    requires d.id in spec.world.dests && spec.world.dests[d.id].id == d.id
    requires spec.result.Done? ==> spec.world.dests[d.id] == d && read == d
    requires !SyncStatus(c, spec, src, s, read, d, f).result.Failed?
    ensures var o := SyncStatus(c, spec, src, s, read, d, f).world;
            d.id in o.dests && StatusOf(o.dests[d.id]) == StatusOf(s)
  {
    var current := spec.world.dests[d.id];
    assert StatusOf(WithStatus(current, StatusOf(s))) == StatusOf(s);
  }

  /** A copy is only ever created where its namespace exists. */
  lemma NamespaceMade(c: Config, w: World, s: Object, f: set<Call>)
    ensures var o := EnsureDestination(c, w, s, f);
            && w.namespaces <= o.world.namespaces <= w.namespaces + {c.destId.namespace}
            && (o.world.dests != w.dests && c.destId.namespace != "" ==> c.destId.namespace in o.world.namespaces)
  {
  }

  /** A requested deletion removes the copy exactly when nothing holds it back, and marks it otherwise. */
  lemma DeletionMarks(c: Config, w: World, src: Object, d: Object, f: set<Call>)
    requires c.blockDeletion && !d.deleting && HandleDeletion(c, w, src, Some(d), f).result.Requeue?
    ensures var o := HandleDeletion(c, w, src, Some(d), f).world;
            && d.id in w.dests
            && (d.id !in o.dests <==> w.dests[d.id].finalizers == {} && c.policy.Background?)
            && (d.id in o.dests ==> o.dests[d.id].deleting && w.dests[d.id].finalizers <= o.dests[d.id].finalizers)
            && (forall x | x != d.id :: Lookup(o.dests, x) == Lookup(w.dests, x))
            && o.source == w.source && o.state == w.state
  {
  }

  /** Without a last known state everything synced is carried over, and nothing else of the copy is lost. */
  lemma FullUpdateCarries(c: Config, s: Object, d: Object)
    ensures var o := FullUpdate(c, s, d);
            && (forall k | k in s.labels && SyncableLabel(k) :: Lookup(o.labels, k) == Some(s.labels[k]))
            && (forall k | k in s.annotations && SyncableAnnotation(k) :: Lookup(o.annotations, k) == Some(s.annotations[k]))
            && (forall k | k in s.content && k !in c.subresources :: Lookup(o.content, k) == Some(s.content[k]))
            && (forall k | !(k in s.labels && SyncableLabel(k)) :: Lookup(o.labels, k) == Lookup(d.labels, k))
            && (forall k | !(k in s.annotations && SyncableAnnotation(k)) :: Lookup(o.annotations, k) == Lookup(d.annotations, k))
            && (forall k | !(k in s.content && k !in c.subresources) :: Lookup(o.content, k) == Lookup(d.content, k))
            && o.id == d.id && o.finalizers == d.finalizers && o.deleting == d.deleting
  {
  }
}
