/**
 The object syncer as a program: objects in memory are changed in place, calls to the API servers
 succeed or fail one by one. Every method does what its specification in ObjectSync says.
 */
module Syncer {
  import opened Options
  import opened MergePatches
  import opened Objects
  import opened UnstructuredObjects
  import opened ObjectSync

  datatype Created = Placed | AlreadyExists | NotCreated

  /** Both API servers and the state store, as reached through their clients. */
  class Servers {
    var world: World
    var log: seq<Call>
    const faults: set<Call>

    constructor (w: World, faults: set<Call>)
      ensures world == w && log == [] && this.faults == faults
    {
      world := w;
      log := [];
      this.faults := faults;
    }

    /** The outcome describes what has happened here since the given earlier state. */
    twostate predicate Did(o: Outcome)
      reads this
    {
      world == o.world && log == old(log) + o.log
    }

    method PatchSourceFinalizers(fs: set<string>) returns (ok: bool)
      modifies this
      ensures Did(PatchFinalizers(old(world), fs, faults))
      ensures ok <==> PatchFinalizers(old(world), fs, faults).result.Requeue?
    {
      ok := PatchFinalizer !in faults && world.source.Some? && FinalizersAccepted(world.source.value, fs);
      if ok {
        world := world.(source := WithFinalizers(world.source.value, fs));
        log := log + [PatchFinalizer];
      }
    }

    method Delete(id: NsName, policy: Policy) returns (ok: bool)
      modifies this
      ensures ok <==> DeleteDest !in faults && id in old(world).dests
      ensures ok ==> world == old(world).(dests := Store(old(world).dests, id, Deleted(old(world).dests[id], policy)))
      ensures log == old(log) + if ok then [DeleteDest] else []
      ensures !ok ==> world == old(world)
    {
      ok := DeleteDest !in faults && id in world.dests;
      if ok {
        world := world.(dests := Store(world.dests, id, Deleted(world.dests[id], policy)));
        log := log + [DeleteDest];
      }
    }

    method CreateNamespace(ns: string) returns (ok: bool)
      modifies this
      ensures ok <==> MakeNamespace !in faults
      ensures ok ==> world == old(world).(namespaces := old(world).namespaces + {ns})
      ensures !ok ==> world == old(world)
      ensures log == old(log) + if ok then [MakeNamespace] else []
    {
      ok := MakeNamespace !in faults;
      if ok {
        world := world.(namespaces := world.namespaces + {ns});
        log := log + [MakeNamespace];
      }
    }

    method Create(o: Object) returns (r: Created)
      modifies this
      ensures r == if CreateDest in faults then NotCreated else if o.id in old(world).dests then AlreadyExists else Placed
      ensures r.Placed? ==> world == old(world).(dests := old(world).dests[o.id := o]) && log == old(log) + [CreateDest]
      ensures !r.Placed? ==> unchanged(this)
    {
      if CreateDest in faults {
        r := NotCreated;
      } else if o.id in world.dests {
        r := AlreadyExists;
      } else {
        r := Placed;
        world := world.(dests := world.dests[o.id := o]);
        log := log + [CreateDest];
      }
    }

    method Write(call: Call, id: NsName, o: Object) returns (ok: bool)
      modifies this
      ensures ok <==> call !in faults
      ensures ok ==> world == old(world).(dests := old(world).dests[id := o]) && log == old(log) + [call]
      ensures !ok ==> unchanged(this)
    {
      ok := call !in faults;
      if ok {
        world := world.(dests := world.dests[id := o]);
        log := log + [call];
      }
    }

    /** Remembers the stripped object without its subresources. */
    method PutState(c: Config, o: Object) returns (ok: bool)
      modifies this
      ensures Did(PutSnapshot(c, old(world), o, faults))
      ensures ok <==> PutSnapshot(c, old(world), o, faults).result.Requeue?
    {
      ok := Call.PutState !in faults;
      if ok {
        world := world.(state := Some(Known(Snapshot(o, c.subresources))));
        log := log + [Call.PutState];
      }
    }

    method WriteSourceStatus(o: Object) returns (ok: bool)
      modifies this
      ensures ok <==> SourceStatus !in faults
      ensures ok ==> world == old(world).(source := Some(o)) && log == old(log) + [SourceStatus]
      ensures !ok ==> unchanged(this)
    {
      ok := SourceStatus !in faults;
      if ok {
        world := world.(source := Some(o));
        log := log + [SourceStatus];
      }
    }
  }

  /** Leaving out subresources before comparing is the same as comparing without them. */
  lemma WithoutSubresources(dest: Object, last: Object, next: Object, subresources: set<string>)
    ensures var a, b := last.(content := last.content - subresources), next.(content := next.content - subresources);
            && NeedsPatch(a, b, {}) == NeedsPatch(last, next, subresources)
            && PatchObject(dest, a, b, {}) == PatchObject(dest, last, next, subresources)
  {
    var a, b := last.content - subresources, next.content - subresources;
    assert a - {} == a && b - {} == b;
  }

  lemma NothingToAdd(a: map<string, string>, b: map<string, string>)
    ensures |b| == 0 ==> a + b == a
  {
    assert |b| == 0 ==> b == map[];
  }

  /** Stamping changes nothing exactly when everything is there, and adds exactly what is missing. */
  lemma StampedIffMissing(have: map<string, string>, want: map<string, string>)
    ensures have + want == have <==> Matches(have, want)
    ensures Missing(have, have + want) == Missing(have, want)
  {
    if have + want == have {
      forall k | k in want
        ensures k in have && have[k] == want[k]
      {
        assert k in have + want && (have + want)[k] == want[k];
      }
    }
  }

  class ObjectSyncer {
    const c: Config
    const subresources: seq<string>
    const api: Servers

    constructor (c: Config, subresources: seq<string>, api: Servers)
      ensures this.c == c && this.subresources == subresources && this.api == api
    {
      this.c := c;
      this.subresources := subresources;
      this.api := api;
    }

    ghost predicate Valid() {
      c.subresources == set k | k in subresources
    }

    // -------------------------------------------------------------- deletion

    method HandleDeletion(source: Unstructured, dest: Option<Object>) returns (r: Result)
      modifies api, source
      ensures var o := ObjectSync.HandleDeletion(c, old(api.world), old(source.value), dest, api.faults);
              api.Did(o) && r == o.result
    {
      if !c.blockDeletion {
        return Done;
      }
      if dest.Some? {
        if !dest.value.deleting {
          var ok := api.Delete(dest.value.id, c.policy);
          if !ok {
            return Failed;
          }
        }
        return Requeue;
      }
      r := RemoveFinalizer(source);
    }

    method RemoveFinalizer(source: Unstructured) returns (r: Result)
      modifies api, source
      ensures var src := old(source.value);
              var o := if FINALIZER in src.finalizers then PatchFinalizers(old(api.world), src.finalizers - {FINALIZER}, api.faults)
                       else Outcome(old(api.world), [], Done);
              api.Did(o) && r == o.result
    {
      if FINALIZER !in source.value.finalizers {
        return Done;
      }
      source.value := source.value.(finalizers := source.value.finalizers - {FINALIZER});
      var ok := api.PatchSourceFinalizers(source.value.finalizers);
      r := if ok then Requeue else Failed;
    }

    method EnsureFinalizer(source: Unstructured) returns (r: Result)
      modifies api, source
      ensures var src := old(source.value);
              var o := if FINALIZER !in src.finalizers then PatchFinalizers(old(api.world), src.finalizers + {FINALIZER}, api.faults)
                       else Outcome(old(api.world), [], Done);
              api.Did(o) && r == o.result
      ensures r.Done? ==> source.value == old(source.value)
    {
      if FINALIZER in source.value.finalizers {
        return Done;
      }
      source.value := source.value.(finalizers := source.value.finalizers + {FINALIZER});
      var ok := api.PatchSourceFinalizers(source.value.finalizers);
      r := if ok then Requeue else Failed;
    }

    // -------------------------------------------------------------- creation

    method EnsureNamespace(ns: string) returns (ok: bool)
      requires ns == c.destId.namespace
      modifies api
      ensures var o := ObjectSync.EnsureNamespace(c, old(api.world), api.faults);
              api.Did(o) && (ok <==> o.result.Done?)
    {
      ok := true;
      if ns != "" && ns !in api.world.namespaces {
        ok := api.CreateNamespace(ns);
      }
    }

    method LabelWithAgent(obj: Unstructured)
      modifies obj
      ensures obj.value == old(obj.value).(labels := old(obj.value).labels + AgentLabels(c))
    {
      if c.agentName != "" {
        obj.EnsureLabels(map[AGENT_LABEL := c.agentName]);
      }
    }

    method EnsureDestMetadata(obj: Unstructured)
      modifies obj
      ensures obj.value == old(obj.value).(labels := old(obj.value).labels + c.destLabels,
                           annotations := old(obj.value).annotations + c.destAnnotations)
    {
      NothingToAdd(obj.value.labels, c.destLabels);
      NothingToAdd(obj.value.annotations, c.destAnnotations);
      if |c.destLabels| > 0 {
        obj.EnsureLabels(c.destLabels);
      }
      if |c.destAnnotations| > 0 {
        obj.EnsureAnnotations(c.destAnnotations);
      }
    }

    /** Links the object to its source and labels it with the agent's name. */
    method StampLinks(obj: Unstructured, labels: map<string, string>, annotations: map<string, string>)
      modifies obj
      ensures obj.value == old(obj.value).(labels := old(obj.value).labels + (labels + AgentLabels(c)),
                           annotations := old(obj.value).annotations + annotations)
    {
      obj.EnsureLabels(labels);
      obj.EnsureAnnotations(annotations);
      LabelWithAgent(obj);
      UnionAssociates(old(obj.value).labels, labels, AgentLabels(c));
    }

    /** Builds the copy step by step from the source. */
    method BuildCopy(source: Object) returns (obj: Unstructured)
      ensures fresh(obj) && obj.value == DesiredCopy(c, source)
    {
      obj := new Unstructured(source.(apiVersion := c.destApiVersion, kind := c.destKind, id := c.destId));
      obj.StripMetadata();
      ghost var stripped := obj.value;
      var labels, annotations := map[], map[];
      if c.linkDest {
        labels, annotations := KeyLabels(c.hash, KeyOf(c, source)), KeyAnnotations(KeyOf(c, source));
        StampLinks(obj, labels, annotations);
        labels := labels + AgentLabels(c);
      }
      assert obj.value.labels == stripped.labels + labels;
      assert obj.value.annotations == stripped.annotations + annotations;
      EnsureDestMetadata(obj);
    }

    /** Takes over an object that has the copy's name but not its labels. */
    method AdoptExisting(id: NsName, source: Object) returns (ok: bool)
      requires id in api.world.dests
      modifies api
      ensures ok <==> AdoptDest !in api.faults
      ensures ok ==> api.Did(Outcome(old(api.world).(dests := old(api.world).dests[id := Adopted(c, source, old(api.world).dests[id])]), [AdoptDest], Requeue))
      ensures !ok ==> unchanged(api)
    {
      var existing := new Unstructured(api.world.dests[id]);
      var labels := KeyLabels(c.hash, KeyOf(c, source));
      StampLinks(existing, labels, KeyAnnotations(KeyOf(c, source)));
      UnionAssociates(api.world.dests[id].labels, labels, AgentLabels(c));
      EnsureDestMetadata(existing);
      ok := api.Write(AdoptDest, id, existing.value);
    }

    method PlaceCopy(source: Object) returns (ok: bool)
      modifies api
      ensures var o := ObjectSync.PlaceCopy(c, old(api.world), source, api.faults);
              api.Did(o) && (ok <==> o.result.Requeue?)
    {
      var obj := BuildCopy(source);
      var r := api.Create(obj.value.(content := c.admit(obj.value.content)));
      match r
      case Placed => ok := true;
      case AlreadyExists => ok := AdoptExisting(c.destId, source);
      case NotCreated => ok := false;
    }

    method EnsureDestinationObject(source: Object) returns (r: Result)
      modifies api
      ensures var o := EnsureDestination(c, old(api.world), source, api.faults);
              api.Did(o) && r == o.result
    {
      if MakeDest in api.faults {
        return Failed;
      }
      var ok := EnsureNamespace(c.destId.namespace);
      if ok {
        ok := PlaceCopy(source);
      }
      if ok {
        ok := api.PutState(c, source);
      }
      r := if ok then Requeue else Failed;
    }

    // -------------------------------------------------------------- content

    /** Patches missing provenance onto an existing copy. */
    method EnsureDestMetadataPersisted(dest: Unstructured) returns (r: Result)
      modifies api, dest
      ensures !NeedsRestamp(c, old(dest.value)) ==> r.Done? && unchanged(api) && dest.value == old(dest.value)
      ensures NeedsRestamp(c, old(dest.value)) ==>
                var o := Restamp(c, old(api.world), old(dest.value), api.faults);
                api.Did(o) && r == o.result
    {
      var original := dest.value;
      EnsureDestMetadata(dest);
      StampedIffMissing(original.labels, c.destLabels);
      StampedIffMissing(original.annotations, c.destAnnotations);
      if original.labels == dest.value.labels && original.annotations == dest.value.annotations {
        return Done;
      }
      if original.id !in api.world.dests {
        return Failed;
      }
      var o := api.world.dests[original.id];
      var ok := api.Write(RestampDest, original.id, o.(labels := o.labels + Missing(original.labels, dest.value.labels),
      annotations := o.annotations + Missing(original.annotations, dest.value.annotations)));
      r := if ok then Requeue else Failed;
    }

    /** The two versions to be compared, without their subresources. */
    method ComparedVersions(base: Object, revision: Object) returns (a: Object, b: Object)
      requires Valid()
      ensures a == base.(content := base.content - c.subresources)
      ensures b == revision.(content := revision.content - c.subresources)
    {
      var x := new Unstructured(base);
      x.RemoveSubresources(subresources);
      var y := new Unstructured(revision);
      y.RemoveSubresources(subresources);
      a, b := x.value, y.value;
    }

    /** Carries over what has changed since the last known state; the copy becomes the server's answer. */
    method PatchFrom(last: Object, source: Object, revision: Unstructured, dest: Unstructured) returns (r: Result)
      requires Valid() && HasBase(api.world) && last == api.world.state.value.last
      requires revision != dest && revision.value == Strip(source)
      modifies api, dest, revision
      ensures revision.value == Revision(c, source, old(dest.value))
      ensures var pending := PatchPending(c, old(api.world), source, old(dest.value));
              var o := if pending then ObjectSync.PatchCopy(c, old(api.world), source, old(dest.value), api.faults)
                       else Outcome(old(api.world), [], Done);
              && api.Did(o) && r == o.result
              && (r.Done? ==> dest.value == old(dest.value))
              && (r.Requeue? ==> Lookup(api.world.dests, old(dest.value).id) == Some(dest.value))
    {
      var base := last.(apiVersion := source.apiVersion, kind := source.kind);
      if c.linkDest {
        var key := KeyOf(c, source);
        revision.ThreeWayDiffMetadata(dest.value, KeyLabels(c.hash, key), KeyAnnotations(key));
      }
      var a, b := ComparedVersions(base, revision.value);
      WithoutSubresources(dest.value, base, revision.value, c.subresources);
      if !NeedsPatch(a, b, {}) {
        return Done;
      }
      var id := dest.value.id;
      if id !in api.world.dests {
        return Failed;
      }
      WithoutSubresources(api.world.dests[id], base, revision.value, c.subresources);
      var o := PatchObject(api.world.dests[id], a, b, {});
      o := o.(content := c.admit(o.content));
      var ok := api.Write(PatchDest, id, o);
      if !ok {
        return Failed;
      }
      dest.value := o;
      r := Requeue;
    }

    /** Without a last known state, everything is written; `version` is the copy as it was fetched. */
    method UpdateInFull(source: Object, revision: Object, dest: Unstructured, version: Object) returns (r: Result)
      requires revision == Strip(source)
      modifies api, dest
      ensures var o := UpdateCopy(c, old(api.world), source, version, old(dest.value), api.faults);
              && api.Did(o) && r == o.result
              && (r.Requeue? ==> Lookup(api.world.dests, old(dest.value).id) == Some(dest.value))
    {
      dest.Overlay(source.content, c.subresources);
      var labels := FilterUnsyncableLabels(revision.labels);
      assert labels == SyncableLabels(source.labels);
      dest.EnsureLabels(labels);
      var annotations := FilterUnsyncableAnnotations(revision.annotations);
      assert annotations == SyncableAnnotations(source.annotations);
      dest.EnsureAnnotations(annotations);
      var id := dest.value.id;
      if Lookup(api.world.dests, id) != Some(version) {
        return Failed;
      }
      dest.value := dest.value.(content := c.admit(dest.value.content));
      var ok := api.Write(UpdateDest, id, dest.value);
      r := if ok then Requeue else Failed;
    }

    method SyncObjectSpec(source: Object, dest: Unstructured, version: Object) returns (r: Result)
      requires Valid()
      modifies api, dest
      ensures var o := SyncSpec(c, old(api.world), source, version, old(dest.value), api.faults);
              && api.Did(o) && r == o.result
              && (r.Done? ==> dest.value == old(dest.value))
              && (r.Requeue? ==> Lookup(api.world.dests, old(dest.value).id) == Some(dest.value))
    {
      if ReadState in api.faults {
        return Failed;
      }
      var revision := new Unstructured(source);
      revision.StripMetadata();
      if HasBase(api.world) {
        r := PatchFrom(api.world.state.value.last, source, revision, dest);
      } else {
        r := UpdateInFull(source, revision.value, dest, version);
      }
      if r.Requeue? {
        var ok := api.PutState(c, revision.value);
        if !ok {
          return Failed;
        }
      }
    }

    method SyncObjectStatusForward(source: Object, dest: Unstructured, version: Object) returns (ok: bool)
      modifies api
      ensures var o := StatusForward(c, old(api.world), source, version, dest.value, api.faults);
              api.Did(o) && (ok <==> o.result.Done?)
    {
      ok := true;
      if c.statusForward && StatusOf(source) != StatusOf(dest.value) {
        if DestStatus in api.faults {
          return false;
        }
        if !c.destHasStatus || version.id !in api.world.dests {
          return true;
        }
        if api.world.dests[version.id] != version {
          return false;
        }
        ok := api.Write(DestStatus, version.id, WithStatus(version, StatusOf(source)));
      }
    }

    method SyncObjectStatus(source: Object, dest: Object, version: Object) returns (ok: bool)
      modifies api
      ensures var o := StatusBack(c, old(api.world), version, source, dest, api.faults);
              api.Did(o) && (ok <==> o.result.Done?)
    {
      ok := true;
      if c.statusBack && StatusOf(source) != StatusOf(dest) {
        if "status" !in c.subresources || api.world.source != Some(version) {
          return false;
        }
        ok := api.WriteSourceStatus(WithStatus(version, StatusOf(dest)));
      }
    }

    method SyncObjectContents(source: Object, sourceVersion: Object, dest: Unstructured, version: Object) returns (r: Result)
      requires Valid()
      modifies api, dest
      ensures var o := SyncContents(c, old(api.world), sourceVersion, source, version, old(dest.value), api.faults);
              api.Did(o) && r == o.result
    {
      r := SyncObjectSpec(source, dest, version);
      if r.Failed? {
        return;
      }
      var ok := SyncObjectStatusForward(source, dest, if r.Requeue? then dest.value else version);
      if !ok {
        return Failed;
      }
      if r.Requeue? {
        return;
      }
      ok := SyncObjectStatus(source, dest.value, sourceVersion);
      r := if ok then Done else Failed;
    }

    /** The copy exists: it is left alone while being deleted, restamped, or brought up to date. */
    method SyncExisting(source: Object, sourceVersion: Object, dest: Object) returns (r: Result)
      requires Valid()
      modifies api
      ensures var d := MutatedDest(c, source, dest);
              var o := if d.deleting then Outcome(old(api.world), [], Done)
                       else if NeedsRestamp(c, d) then Restamp(c, old(api.world), d, api.faults)
                       else SyncContents(c, old(api.world), sourceVersion, source, dest, d, api.faults);
              api.Did(o) && r == o.result
    {
      var obj := new Unstructured(MutatedDest(c, source, dest));
      if obj.value.deleting {
        return Done;
      }
      r := EnsureDestMetadataPersisted(obj);
      if !r.Done? {
        return;
      }
      r := SyncObjectContents(source, sourceVersion, obj, dest);
    }

    /** The source is alive and protected: mutation rules apply, then the copy is made or updated. */
    method SyncLive(source: Unstructured, dest: Option<Object>) returns (r: Result)
      requires Valid()
      requires !source.value.deleting && !c.forceDelete
      requires c.blockDeletion ==> FINALIZER in source.value.finalizers
      modifies api, source
      ensures var o := ObjectSync.Sync(c, old(api.world), old(source.value), dest, api.faults);
              api.Did(o) && r == o.result
    {
      if c.mutator.Some? && Mutate in api.faults {
        return Failed;
      }
      var original := source.value;
      source.value := MutatedSource(c, original, dest);
      if dest.None? {
        r := EnsureDestinationObject(source.value);
      } else {
        r := SyncExisting(source.value, original, dest.value);
      }
    }

    /** Teardown for a source that goes; for any other, the finalizer comes first. */
    method Dispatch(source: Unstructured, dest: Option<Object>) returns (r: Result)
      requires Valid()
      modifies api, source
      ensures var o := ObjectSync.Sync(c, old(api.world), old(source.value), dest, api.faults);
              api.Did(o) && r == o.result
    {
      if source.value.deleting || c.forceDelete {
        r := HandleDeletion(source, dest);
      } else {
        r := Done;
        if c.blockDeletion {
          r := EnsureFinalizer(source);
        }
        if r.Done? {
          r := SyncLive(source, dest);
        }
      }
    }

    /**
     Synchronizes the source as read onto its copy as read. A caller told that this is done can rely on
     nothing but status having changed, so that no further call is needed to see the effect of this one.
     */
    method Sync(source: Unstructured, dest: Option<Object>) returns (r: Result)
      requires Valid()
      modifies api, source
      ensures var o := ObjectSync.Sync(c, old(api.world), old(source.value), dest, api.faults);
              api.Did(o) && r == o.result
      ensures r.Done? ==> OnlyStatusChanged(old(api.world), api.world)
    {
      ghost var src := source.value;
      r := Dispatch(source, dest);
      if r.Done? {
        RequeueHonesty(c, old(api.world), src, dest, api.faults);
      }
    }
  }
}
