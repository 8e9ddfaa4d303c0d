/**
 The way back from a copy to its source: it is there from the moment the copy is created, and every
 later write of the agent keeps or restores it.
 */
module Links {
  import opened Options
  import opened MergePatches
  import opened Objects
  import opened ObjectSync
  import opened Lifecycle
  import opened NoOrphanRuns

  /** The copy is found by the key's selector, and the request derived from it names the key. */
  predicate LinkedBack(hash: Hash, o: Object, key: ObjectKey) {
    Linked(hash, o, key) && RemoteName(o) == Some((key.cluster, key.id))
  }

  predicate Addressable(key: ObjectKey) {
    key.cluster != "" && key.id.name != ""
  }

  /** The syncer as configured for primary objects, with no extra stamps. */
  predicate Linking(c: Config) {
    c.linkDest && c.destLabels == map[] && c.destAnnotations == map[] && c.mutator.None?
  }

  lemma StampedAnnotations(have: map<string, string>, key: ObjectKey)
    ensures Matches(have + KeyAnnotations(key), KeyAnnotations(key))
    ensures key.id.namespace == "" ==> Read(have + KeyAnnotations(key), NAMESPACE_ANNOTATION) == Read(have, NAMESPACE_ANNOTATION)
  {
    StampMatches(have, KeyAnnotations(key));
    assert key.id.namespace == "" ==> NAMESPACE_ANNOTATION !in KeyAnnotations(key);
  }

  /** An object stamped with the links of a key leads back to it, unless it has a stray namespace. */
  lemma StampedLinksBack(hash: Hash, o: Object, labels: map<string, string>, more: map<string, string>, annotations: map<string, string>, key: ObjectKey)
    requires Addressable(key) && more.Keys <= {AGENT_LABEL}
    requires o.labels == labels + (KeyLabels(hash, key) + more) && o.annotations == annotations + KeyAnnotations(key)
    ensures Linked(hash, o, key)
    ensures LinkedBack(hash, o, key) <==> (key.id.namespace == "" ==> Read(annotations, NAMESPACE_ANNOTATION) == "")
  {
    StampedLabels(hash, labels, more, key);
    StampedAnnotations(annotations, key);
    LinkRoundTrip(hash, o, key);
  }

  lemma SyncableHaveNoNamespace(annotations: map<string, string>)
    ensures Read(SyncableAnnotations(annotations), NAMESPACE_ANNOTATION) == ""
  {
    assert !SyncableAnnotation(NAMESPACE_ANNOTATION);
  }

  lemma AgentLabelOnly(c: Config)
    ensures AgentLabels(c).Keys <= {AGENT_LABEL}
  {
  }

  lemma CreatedCopyLinked(c: Config, s: Object)
    requires Linking(c) && Addressable(KeyOf(c, s))
    ensures LinkedBack(c.hash, DesiredCopy(c, s), KeyOf(c, s))
  {
    var key := KeyOf(c, s);
    AgentLabelOnly(c);
    SyncableHaveNoNamespace(s.annotations);
    UnionAssociates(SyncableLabels(s.labels) + (KeyLabels(c.hash, key) + AgentLabels(c)), map[], map[]);
    UnionAssociates(SyncableAnnotations(s.annotations) + KeyAnnotations(key), map[], map[]);
    StampedLinksBack(c.hash, DesiredCopy(c, s), SyncableLabels(s.labels), AgentLabels(c), SyncableAnnotations(s.annotations), key);
  }

  /** An adopted object leads back, unless it is taken over with a namespace the source does not have. */
  lemma AdoptedCopyLinked(c: Config, s: Object, existing: Object)
    requires Linking(c) && Addressable(KeyOf(c, s))
    ensures Linked(c.hash, Adopted(c, s, existing), KeyOf(c, s))
    ensures LinkedBack(c.hash, Adopted(c, s, existing), KeyOf(c, s))
            <==> (s.id.namespace == "" ==> Read(existing.annotations, NAMESPACE_ANNOTATION) == "")
  {
    var key := KeyOf(c, s);
    AgentLabelOnly(c);
    UnionAssociates(existing.labels, KeyLabels(c.hash, key), AgentLabels(c));
    UnionAssociates(existing.labels + KeyLabels(c.hash, key) + AgentLabels(c), map[], map[]);
    UnionAssociates(existing.annotations + KeyAnnotations(key), map[], map[]);
    StampedLinksBack(c.hash, Adopted(c, s, existing), existing.labels, AgentLabels(c), existing.annotations, key);
  }

  lemma SyncableUpdateKeeps(have: map<string, string>, more: map<string, string>, want: map<string, string>)
    requires Matches(have, want) && more.Keys !! want.Keys
    ensures Matches(have + more, want)
  {
  }

  /** The request derived from a copy only depends on entries that are never synced. */
  lemma RemoteNameDepends(a: Object, b: Object)
    requires forall k | !SyncableLabel(k) :: Read(a.labels, k) == Read(b.labels, k)
    requires forall k | !SyncableAnnotation(k) :: Read(a.annotations, k) == Read(b.annotations, k)
    ensures RemoteName(a) == RemoteName(b)
  {
    assert !SyncableLabel(CLUSTER_LABEL) && !SyncableAnnotation(NAME_ANNOTATION) && !SyncableAnnotation(NAMESPACE_ANNOTATION);
  }

  lemma FullUpdateRemoteName(c: Config, s: Object, d: Object)
    ensures RemoteName(FullUpdate(c, s, d)) == RemoteName(d)
  {
    RemoteNameDepends(FullUpdate(c, s, d), d);
  }

  /** Writing all synced fields over a copy does not touch its link. */
  lemma FullUpdateKeepsLink(c: Config, s: Object, d: Object)
    requires LinkedBack(c.hash, d, KeyOf(c, s))
    ensures LinkedBack(c.hash, FullUpdate(c, s, d), KeyOf(c, s))
  {
    var key := KeyOf(c, s);
    LinkKeysUnsyncable(c.hash, key);
    SyncableUpdateKeeps(d.labels, SyncableLabels(s.labels), KeyLabels(c.hash, key));
    SyncableUpdateKeeps(d.annotations, SyncableAnnotations(s.annotations), KeyAnnotations(key));
    FullUpdateRemoteName(c, s, d);
  }

  /**
   A patch restores every link entry the copy has lost, whichever they are, except when the source
   loses its last syncable label or annotation with nothing to be repaired.
   */
  lemma PatchRestoresLink(c: Config, s: Object, dest: Object, last: Object)
    requires c.linkDest && Clean(last) && Addressable(KeyOf(c, s))
    requires s.id.namespace == "" ==> Read(dest.annotations, NAMESPACE_ANNOTATION) == ""
    requires !Drops(last.labels, Revision(c, s, dest).labels) && !Drops(last.annotations, Revision(c, s, dest).annotations)
    ensures LinkedBack(c.hash, PatchObject(dest, last, Revision(c, s, dest), c.subresources), KeyOf(c, s))
  {
    var key := KeyOf(c, s);
    LinkKeysUnsyncable(c.hash, key);
    RepairedEntries(dest.labels, last.labels, SyncableLabels(s.labels), KeyLabels(c.hash, key));
    RepairedEntries(dest.annotations, last.annotations, SyncableAnnotations(s.annotations), KeyAnnotations(key));
    var o := PatchObject(dest, last, Revision(c, s, dest), c.subresources);
    LinkRoundTrip(c.hash, o, key);
    assert !SyncableAnnotation(NAMESPACE_ANNOTATION);
  }

  /** The synchronization writes the copy by a patch that drops its links. */
  predicate LosesLinks(c: Config, w: World, src: Object, d: Object) {
    && HasBase(w)
    && var next := Revision(c, src, d);
    Drops(w.state.value.last.labels, next.labels) || Drops(w.state.value.last.annotations, next.annotations)
  }

  lemma WriteSpecKeepsLink(c: Config, w: World, src: Object, d: Object, f: set<Call>)
    requires Linking(c) && Addressable(KeyOf(c, src))
    requires HasBase(w) ==> Clean(w.state.value.last)
    requires Lookup(w.dests, d.id) == Some(d) && LinkedBack(c.hash, d, KeyOf(c, src))
    requires !LosesLinks(c, w, src, d)
    ensures var o := WriteSpec(c, w, src, d, d, f).world;
            d.id in o.dests && o.dests[d.id].id == d.id && LinkedBack(c.hash, o.dests[d.id], KeyOf(c, src))
  {
    if HasBase(w) {
      LinkRoundTrip(c.hash, d, KeyOf(c, src));
      PatchRestoresLink(c, src, d, Base(w.state.value.last, src));
    } else {
      FullUpdateKeepsLink(c, src, d);
    }
  }

  lemma SyncWithCopy(c: Config, w: World, src: Object, d: Object, f: set<Call>)
    requires Linking(c)
    ensures var dests := Sync(c, w, src, Some(d), f).world.dests;
            || dests == w.dests
            || dests == DeleteCopy(c, w, d.id, f).world.dests
            || dests == SyncContents(c, w, src, src, d, d, f).world.dests
  {
  }

  lemma SpecDests(c: Config, w: World, s: Object, read: Object, d: Object, f: set<Call>)
    ensures var dests := SyncSpec(c, w, s, read, d, f).world.dests;
            dests == w.dests || dests == WriteSpec(c, w, s, read, d, f).world.dests
  {
  }

  /** Being marked for deletion does not take the property away. */
  ghost predicate SurvivesDeletion(P: Object -> bool) {
    forall o, fs: set<string> {:trigger P(o.(finalizers := fs, deleting := true))} ::
      P(o) ==> P(o.(finalizers := fs, deleting := true))
  }

  lemma ContentsDests(c: Config, w: World, src: Object, d: Object, f: set<Call>)
    requires !c.statusForward
    ensures var dests := SyncContents(c, w, src, src, d, d, f).world.dests;
            dests == w.dests || dests == WriteSpec(c, w, src, d, d, f).world.dests
  {
    SpecDests(c, w, src, d, d, f);
    SyncStatusKeeps(c, SyncSpec(c, w, src, d, d, f), src, src, d, d, f);
  }

  /** A synchronization keeps what its write of the desired state keeps. */
  lemma SyncKeepsProperty(c: Config, w: World, src: Object, d: Object, f: set<Call>, P: Object -> bool)
    requires Linking(c) && !c.statusForward
    requires Lookup(w.dests, d.id) == Some(d) && P(d) && SurvivesDeletion(P)
    requires var dests := WriteSpec(c, w, src, d, d, f).world.dests;
             d.id in dests ==> P(dests[d.id])
    ensures var dests := Sync(c, w, src, Some(d), f).world.dests;
            d.id in dests ==> P(dests[d.id])
  {
    ContentsDests(c, w, src, d, f);
    SyncWithCopy(c, w, src, d, f);
  }

  function LeadsBack(hash: Hash, key: ObjectKey, id: NsName): Object -> bool {
    (o: Object) => o.id == id && LinkedBack(hash, o, key)
  }

  lemma LeadsBackSurvives(hash: Hash, key: ObjectKey, id: NsName)
    ensures SurvivesDeletion(LeadsBack(hash, key, id))
  {
  }

  /** Whatever a synchronization of the source does, a copy that led back to it still does, or is gone. */
  lemma SyncKeepsLink(c: Config, w: World, src: Object, d: Object, f: set<Call>)
    requires Linking(c) && !c.statusForward && Addressable(KeyOf(c, src))
    requires HasBase(w) ==> Clean(w.state.value.last)
    requires Lookup(w.dests, d.id) == Some(d) && LinkedBack(c.hash, d, KeyOf(c, src))
    requires !LosesLinks(c, w, src, d)
    ensures var o := Sync(c, w, src, Some(d), f).world;
            d.id in o.dests ==> o.dests[d.id].id == d.id && LinkedBack(c.hash, o.dests[d.id], KeyOf(c, src))
  {
    WriteSpecKeepsLink(c, w, src, d, f);
    LeadsBackSurvives(c.hash, KeyOf(c, src), d.id);
    SyncKeepsProperty(c, w, src, d, f, LeadsBack(c.hash, KeyOf(c, src), d.id));
  }

  /** Where there was no object of that name, a synchronization leaves none, or one that leads back. */
  lemma SyncCreatesLink(c: Config, w: World, src: Object, f: set<Call>)
    requires Linking(c) && Addressable(KeyOf(c, src))
    requires c.destId !in w.dests
    ensures var o := Sync(c, w, src, None, f).world;
            c.destId in o.dests ==> o.dests[c.destId].id == c.destId && LinkedBack(c.hash, o.dests[c.destId], KeyOf(c, src))
  {
    CreatedCopyLinked(c, src);
    CreatedDests(c, w, src, f);
    SyncWithoutCopy(c, w, src, f);
  }

  lemma SyncWithoutCopy(c: Config, w: World, src: Object, f: set<Call>)
    requires c.mutator.None?
    ensures var dests := Sync(c, w, src, None, f).world.dests;
            dests == w.dests || dests == EnsureDestination(c, w, src, f).world.dests
  {
  }

  lemma CreatedDests(c: Config, w: World, s: Object, f: set<Call>)
    requires c.destId !in w.dests
    ensures var dests := EnsureDestination(c, w, s, f).world.dests;
            var o := DesiredCopy(c, s);
            dests == w.dests || dests == w.dests[c.destId := o.(content := c.admit(o.content))]
  {
    var made := EnsureNamespace(c, w, f);
    assert made.world.dests == w.dests;
  }

  // ---------------------------------------------------------------- repair

  /** Nothing is pending only for a copy that has all its links: a missing one would be repaired. */
  lemma NothingMissing(have: map<string, string>, last: map<string, string>, source: map<string, string>, want: map<string, string>)
    requires last == source + Missing(have, want) && last.Keys !! want.Keys
    ensures Matches(have, want)
  {
    forall k | k in want
      ensures k in have && have[k] == want[k]
    {
      assert k in Missing(have, want) ==> k in last;
    }
  }

  /**
   Whatever has been done to a copy: once a synchronization of a live source reports completion on it,
   it carries the labels it is found by and the annotations that name its source.
   */
  lemma DoneMeansLinked(c: Config, w: World, src: Object, d: Object, f: set<Call>)
    requires Linking(c) && !c.statusForward && BlobOk(w.state, src.id)
    requires !src.deleting && !c.forceDelete && !d.deleting
    requires Sync(c, w, src, Some(d), f).result.Done?
    ensures Linked(c.hash, d, KeyOf(c, src))
    ensures Sync(c, w, src, Some(d), f).world.dests == w.dests
  {
    var key, next := KeyOf(c, src), Revision(c, src, d);
    var last := w.state.value.last;
    LinkKeysUnsyncable(c.hash, key);
    DonePending(c, w, src, d, f);
    NothingMissing(d.labels, last.labels, SyncableLabels(src.labels), KeyLabels(c.hash, key));
    NothingMissing(d.annotations, last.annotations, SyncableAnnotations(src.annotations), KeyAnnotations(key));
  }

  lemma DonePending(c: Config, w: World, src: Object, d: Object, f: set<Call>)
    requires Linking(c) && !src.deleting && !c.forceDelete && !d.deleting
    requires Sync(c, w, src, Some(d), f).result.Done?
    ensures HasBase(w) && !PatchPending(c, w, src, d)
    ensures !c.statusForward ==> Sync(c, w, src, Some(d), f).world.dests == w.dests
  {
  }

  /**
   Over every run of the machine: when the primary part of a commit completes on a live copy, that copy
   leads back to its source, even if its annotations had been tampered with at any time before -- except
   for a namespace annotation on the copy of a cluster-scoped source, which nothing removes.
   */
  lemma RepairedInRuns(st: Setup, trace: seq<Machine>, steps: seq<Step>, i: nat)
    requires ValidSetup(st) && IsRun(st, trace, steps) && i < |steps| && steps[i].Commit?
    requires var v := trace[i].running[steps[i].k];
             && v.copy.Some? && !v.copy.value.deleting && !v.source.deleting
             && SyncPrimary(st, steps[i].k, SysOf(trace[i], steps[i].k), v, steps[i].chance.faults).result.Done?
    ensures var k, v := steps[i].k, trace[i].running[steps[i].k];
            var key := ObjectKey(k.cluster, st.paths(k.cluster), k.id);
            && Linked(st.agent.hash, v.copy.value, key)
            && (Addressable(key) ==> (LinkedBack(st.agent.hash, v.copy.value, key)
                                      <==> (k.id.namespace == "" ==> Read(v.copy.value.annotations, NAMESPACE_ANNOTATION) == "")))
  {
    var m, k, v := trace[i], steps[i].k, trace[i].running[steps[i].k];
    var sys, c := SysOf(m, k), PrimaryConfig(st, k, v.source);
    var key := ObjectKey(k.cluster, st.paths(k.cluster), k.id);
    InvInRuns(st, trace, steps, i);
    assert KeyOf(c, v.source) == key;
    var w := World(sys.primary, sys.dests, NamespacesOf(sys.namespaces, ""), Lookup(sys.state, EntryKey(k)));
    assert BlobOk(w.state, v.source.id);
    DoneMeansLinked(c, w, v.source, v.copy.value, steps[i].chance.faults);
    if Addressable(key) {
      LinkRoundTrip(st.agent.hash, v.copy.value, key);
    }
  }

  // ---------------------------------------------------------------- runs of one copy

  /** The agent synchronizes some version of the source, or something else happens on the servers. */
  datatype CopyStep = AgentSyncs(src: Object, f: set<Call>) | Elsewhere(w: World)

  const LINK_ANNOTATIONS := {NAMESPACE_ANNOTATION, NAME_ANNOTATION, PATH_ANNOTATION}

  /** Of the second object, at least the link entries are those of the first. */
  predicate SameLinkEntries(o: Object, o': Object) {
    && (forall x | x in UNSYNCABLE_LABELS :: Lookup(o'.labels, x) == Lookup(o.labels, x))
    && (forall x | x in LINK_ANNOTATIONS :: Lookup(o'.annotations, x) == Lookup(o.annotations, x))
  }

  lemma SameAnnotationsMatch(have: map<string, string>, have': map<string, string>, key: ObjectKey)
    requires (forall x | x in LINK_ANNOTATIONS :: Lookup(have', x) == Lookup(have, x)) && Matches(have, KeyAnnotations(key))
    ensures Matches(have', KeyAnnotations(key))
  {
    forall x | x in KeyAnnotations(key)
      ensures x in have' && have'[x] == KeyAnnotations(key)[x]
    {
      assert x in LINK_ANNOTATIONS;
      assert Lookup(have', x) == Lookup(have, x);
    }
  }

  lemma SameEntriesLinkedBack(hash: Hash, o: Object, o': Object, key: ObjectKey)
    requires SameLinkEntries(o, o') && LinkedBack(hash, o, key)
    ensures LinkedBack(hash, o', key)
  {
    SameLinksMatch(o.labels, o'.labels, hash, key);
    SameAnnotationsMatch(o.annotations, o'.annotations, key);
    assert Lookup(o'.labels, CLUSTER_LABEL) == Lookup(o.labels, CLUSTER_LABEL);
    assert Lookup(o'.annotations, NAME_ANNOTATION) == Lookup(o.annotations, NAME_ANNOTATION);
    assert Lookup(o'.annotations, NAMESPACE_ANNOTATION) == Lookup(o.annotations, NAMESPACE_ANNOTATION);
  }

  predicate LinkInv(c: Config, key: ObjectKey, w: World) {
    && BlobOk(w.state, key.id)
    && (c.destId in w.dests ==> w.dests[c.destId].id == c.destId && LinkedBack(c.hash, w.dests[c.destId], key))
  }

  /**
   Everything but the agent leaves the remembered state and the link entries of an existing copy alone;
   all its other labels and annotations, its content and its deletion are anyone's business.
   */
  predicate LinkStepOk(c: Config, key: ObjectKey, w: World, step: CopyStep, w': World) {
    match step
    case AgentSyncs(src, f) =>
      && KeyOf(c, src) == key && WellFormed(src)
      && var d := Lookup(w.dests, c.destId);
      && (d.Some? ==> !LosesLinks(c, w, src, d.value))
      && w' == Sync(c, w, src, d, f).world
    case Elsewhere(w1) =>
      && w' == w1 && w1.state == w.state
      && (c.destId in w1.dests ==>
            c.destId in w.dests && w1.dests[c.destId].id == c.destId && SameLinkEntries(w.dests[c.destId], w1.dests[c.destId]))
  }

  lemma StepKeepsLinkInv(c: Config, key: ObjectKey, w: World, step: CopyStep, w': World)
    requires Linking(c) && !c.statusForward && Addressable(key)
    requires LinkInv(c, key, w) && LinkStepOk(c, key, w, step, w')
    ensures LinkInv(c, key, w')
  {
    if step.AgentSyncs? {
      var d := Lookup(w.dests, c.destId);
      SyncKeepsStateOk(c, w, step.src, d, step.f);
      if d.Some? {
        SyncKeepsLink(c, w, step.src, d.value, step.f);
      } else {
        SyncCreatesLink(c, w, step.src, step.f);
      }
    } else if c.destId in w'.dests {
      SameEntriesLinkedBack(c.hash, w.dests[c.destId], w'.dests[c.destId], key);
    }
  }

  /** From creation on, through any run of patches, updates and foreign changes, the copy leads back to its source. */
  lemma {:induction false} LinkKeptInRuns(c: Config, key: ObjectKey, trace: seq<World>, steps: seq<CopyStep>, i: nat)
    requires Linking(c) && !c.statusForward && Addressable(key)
    requires |trace| == |steps| + 1 && c.destId !in trace[0].dests && BlobOk(trace[0].state, key.id)
    requires forall j | 0 <= j < |steps| :: LinkStepOk(c, key, trace[j], steps[j], trace[j + 1])
    requires i < |trace|
    ensures LinkInv(c, key, trace[i])
    decreases i
  {
    if i > 0 {
      LinkKeptInRuns(c, key, trace, steps, i - 1);
      StepKeepsLinkInv(c, key, trace[i - 1], steps[i - 1], trace[i]);
    }
  }
}
