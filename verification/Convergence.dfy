/**
 The primary object's synchronization in a quiet environment: every requeue makes progress, and
 where the requeues end both sides agree.
 */
module Convergence {
  import opened Options
  import opened MergePatches
  import opened Objects
  import opened ObjectSync

  /** The syncer as configured for primary objects, without mutation rules. */
  predicate Primary(c: Config) {
    && c.blockDeletion && c.linkDest && c.statusBack && !c.statusForward && !c.forceDelete
    && c.destLabels == map[] && c.destAnnotations == map[]
    && c.mutator.None?
  }

  /** The copies that a selector finds. */
  function Found(dests: map<NsName, Object>, selector: map<string, string>): set<NsName> {
    set id | id in dests && Matches(dests[id].labels, selector)
  }

  function Selector(c: Config, src: Object): map<string, string> {
    KeyLabels(c.hash, KeyOf(c, src))
  }

  ghost function Pick(ids: set<NsName>): NsName
    requires ids != {}
  {
    var id :| id in ids;
    id
  }

  /** One Process call on a primary without related resources, on current data. */
  ghost function Process(c: Config, w: World, f: set<Call>): Outcome
    requires w.source.Some?
  {
    var ids := Found(w.dests, Selector(c, w.source.value));
    if |ids| > 1 then Outcome(w, [], Failed)
    else Sync(c, w, w.source.value, if ids == {} then None else Some(w.dests[Pick(ids)]), f)
  }

  /** A remembered state is the snapshot of an earlier version of the same source. */
  predicate SnapshotOf(c: Config, last: Object, src: Object) {
    && Clean(last) && last.id == src.id && last.deleting == src.deleting
    && last.content.Keys !! c.subresources
  }

  /** Neither side is being deleted, at most one copy is labelled, and the remembered state is sane. */
  ghost predicate Quiet(c: Config, w: World) {
    && w.source.Some? && !w.source.value.deleting
    && var ids := Found(w.dests, Selector(c, w.source.value));
    && |ids| <= 1
    && (forall id | id in w.dests :: w.dests[id].id == id)
    && (forall id | id in w.dests && (id in ids || id == c.destId) :: !w.dests[id].deleting)
    && (HasBase(w) ==> SnapshotOf(c, w.state.value.last, w.source.value))
  }

  /** Both sides agree: protected source, one linked copy, up-to-date state, nothing to patch. */
  ghost predicate InSync(c: Config, w: World) {
    && w.source.Some? && FINALIZER in w.source.value.finalizers
    && var src := w.source.value;
    && exists id ::
         && Found(w.dests, Selector(c, src)) == {id} && id in w.dests
         && var d := w.dests[id];
         && Linked(c.hash, d, KeyOf(c, src))
         && HasBase(w)
         && Base(w.state.value.last, src) == Snapshot(src, c.subresources)
         && !PatchPending(c, w, src, d)
         && StatusOf(src) == StatusOf(d)
  }

  /** Number of requeues still to come. */
  ghost function Rank(c: Config, w: World): nat
    requires w.source.Some?
  {
    (if FINALIZER in w.source.value.finalizers then 0 else 1) + CopyRank(c, w)
  }

  ghost function CopyRank(c: Config, w: World): nat
    requires w.source.Some?
  {
    var src := w.source.value;
    var ids := Found(w.dests, Selector(c, src));
    if ids == {} then 1
    else FoundRank(c, w, src, w.dests[Pick(ids)])
  }

  ghost function FoundRank(c: Config, w: World, src: Object, d: Object): nat {
    if !HasBase(w) then
      if Matches(d.annotations, KeyAnnotations(KeyOf(c, src))) then 1 else 2
    else if !PatchPending(c, w, src, d) then 0
    else
      var last, next := w.state.value.last, Revision(c, src, d);
      if Drops(last.labels, next.labels) || Drops(last.annotations, next.annotations) then 2 else 1
  }

  lemma PickOnly(ids: set<NsName>)
    requires ids != {} && |ids| <= 1
    ensures ids == {Pick(ids)}
  {
    var id := Pick(ids);
    assert |ids - {id}| == 0;
  }

  /** Rewriting one object changes the search result for that object only. */
  lemma FoundAfter(dests: map<NsName, Object>, selector: map<string, string>, id: NsName, o: Object)
    ensures var rest := Found(dests, selector) - {id};
            Found(dests[id := o], selector) == if Matches(o.labels, selector) then rest + {id} else rest
  {
  }

  /** After the state has been stored, only a missing link can make another patch necessary. */
  lemma RevisionOfLinked(c: Config, src: Object, d: Object)
    requires c.linkDest && Matches(d.labels, Selector(c, src))
    ensures var next := Revision(c, src, d);
            && next.labels == SyncableLabels(src.labels)
            && next.annotations == SyncableAnnotations(src.annotations) + Missing(d.annotations, KeyAnnotations(KeyOf(c, src)))
  {
    assert Missing(d.labels, KeyLabels(c.hash, KeyOf(c, src))) == map[];
  }

  lemma PatchAfterPut(c: Config, w: World, src: Object, d: Object)
    requires c.linkDest
    requires w.state == Some(Known(Snapshot(src, c.subresources)))
    requires Matches(d.labels, Selector(c, src))
    ensures PatchPending(c, w, src, d) <==> !Matches(d.annotations, KeyAnnotations(KeyOf(c, src)))
    ensures PatchPending(c, w, src, d) ==>
              !Drops(w.state.value.last.labels, Revision(c, src, d).labels) && Revision(c, src, d).annotations != map[]
  {
    var key := KeyOf(c, src);
    var next := Revision(c, src, d);
    LinkKeysUnsyncable(c.hash, key);
    RevisionOfLinked(c, src, d);
    assert src.content - c.subresources - c.subresources == src.content - c.subresources;
    var want := KeyAnnotations(key);
    if Matches(d.annotations, want) {
      assert Missing(d.annotations, want) == map[];
      assert next.annotations == SyncableAnnotations(src.annotations);
    } else {
      var k :| k in want && !(k in d.annotations && d.annotations[k] == want[k]);
      assert k in next.annotations && k !in SyncableAnnotations(src.annotations);
    }
  }

  lemma SnapshotIsSnapshotOf(c: Config, src: Object)
    ensures SnapshotOf(c, Snapshot(src, c.subresources), src)
  {
    SnapshotClean(src, c.subresources);
  }

  /** Storing the snapshot of the revision remembers the source itself. */
  lemma PutRemembersSource(c: Config, s: Object, d: Object)
    ensures Snapshot(Revision(c, s, d), c.subresources) == Snapshot(s, c.subresources)
    ensures Snapshot(Strip(s), c.subresources) == Snapshot(s, c.subresources)
  {
    RepairInvisibleToSnapshot(c.hash, s, d, KeyOf(c, s), c.subresources);
    SnapshotClean(Strip(s), {});
    SnapshotClean(s, {});
    assert Snapshot(s, {}).content == s.content;
    assert Strip(Strip(s)) == Strip(s);
  }

  /** The finalizer step. */
  lemma FinalizerStep(c: Config, w: World)
    requires Primary(c) && Quiet(c, w) && FINALIZER !in w.source.value.finalizers
    ensures var o := Process(c, w, {});
            o.result.Requeue? && Quiet(c, o.world) && Rank(c, o.world) < Rank(c, w)
  {
    var src := w.source.value;
    var src' := src.(finalizers := src.finalizers + {FINALIZER});
    var w' := w.(source := Some(src'));
    assert Process(c, w, {}).world == w';
    assert Selector(c, src') == Selector(c, src);
    var ids := Found(w.dests, Selector(c, src));
    if ids != {} {
      assert Revision(c, src', w.dests[Pick(ids)]) == Revision(c, src, w.dests[Pick(ids)]);
    }
    assert CopyRank(c, w') == CopyRank(c, w);
  }

  lemma DesiredCopyLinked(c: Config, s: Object)
    requires c.linkDest && c.destLabels == map[] && c.destAnnotations == map[]
    ensures Linked(c.hash, DesiredCopy(c, s), KeyOf(c, s))
    ensures forall e :: Linked(c.hash, Adopted(c, s, e), KeyOf(c, s))
  {
    var key := KeyOf(c, s);
    var labels, annotations := KeyLabels(c.hash, key), KeyAnnotations(key);
    StampedLabels(c.hash, SyncableLabels(s.labels), AgentLabels(c), key);
    StampMatches(SyncableAnnotations(s.annotations), annotations);
    UnionAssociates(SyncableLabels(s.labels) + (labels + AgentLabels(c)), map[], map[]);
    forall e
      ensures Linked(c.hash, Adopted(c, s, e), key)
    {
      StampedLabels(c.hash, e.labels, AgentLabels(c), key);
      UnionAssociates(e.labels, labels, AgentLabels(c));
      StampMatches(e.annotations, annotations);
    }
  }

  predicate Written(c: Config, w: World, w': World, id: NsName, copy: Object)
    requires w.source.Some?
  {
    && w'.source == w.source && w'.dests == w.dests[id := copy]
    && w'.state == Some(Known(Snapshot(w.source.value, c.subresources)))
    && Found(w.dests, Selector(c, w.source.value)) <= {id}
    && copy.id == id && !copy.deleting
  }

  lemma FoundAfterWrite(c: Config, w: World, w': World, id: NsName, copy: Object)
    requires w.source.Some? && Written(c, w, w', id, copy)
    ensures Found(w'.dests, Selector(c, w.source.value)) == if Matches(copy.labels, Selector(c, w.source.value)) then {id} else {}
  {
    FoundAfter(w.dests, Selector(c, w.source.value), id, copy);
  }

  lemma QuietAfterWrite(c: Config, w: World, w': World, id: NsName, copy: Object)
    requires Quiet(c, w) && Written(c, w, w', id, copy)
    ensures Quiet(c, w')
  {
    FoundAfterWrite(c, w, w', id, copy);
    SnapshotIsSnapshotOf(c, w.source.value);
  }

  /** What is left to do once the copy has been written and the source remembered. */
  lemma AfterWrite(c: Config, w: World, w': World, id: NsName, copy: Object)
    requires Primary(c) && Quiet(c, w) && FINALIZER in w.source.value.finalizers
    requires Written(c, w, w', id, copy)
    ensures Quiet(c, w')
    ensures Rank(c, w') == if Linked(c.hash, copy, KeyOf(c, w.source.value)) then 0 else 1
  {
    QuietAfterWrite(c, w, w', id, copy);
    FoundAfterWrite(c, w, w', id, copy);
    var src := w.source.value;
    if Matches(copy.labels, Selector(c, src)) {
      PatchAfterPut(c, w', src, copy);
      assert CopyRank(c, w') == FoundRank(c, w', src, copy);
    }
  }

  /** What creating or adopting writes. */
  lemma PlaceEffect(c: Config, w: World, s: Object) returns (copy: Object)
    requires c.linkDest && c.destLabels == map[] && c.destAnnotations == map[] && !s.deleting
    requires c.destId in w.dests ==> w.dests[c.destId].id == c.destId && !w.dests[c.destId].deleting
    ensures var o := EnsureDestination(c, w, s, {});
            && o.result.Requeue?
            && o.world.source == w.source && o.world.dests == w.dests[c.destId := copy]
            && o.world.state == Some(Known(Snapshot(s, c.subresources)))
    ensures copy.id == c.destId && !copy.deleting && Linked(c.hash, copy, KeyOf(c, s))
  {
    DesiredCopyLinked(c, s);
    copy := EnsureDestination(c, w, s, {}).world.dests[c.destId];
  }

  /** Creating or adopting the copy leaves nothing else to do. */
  lemma PlaceStep(c: Config, w: World)
    requires Primary(c) && Quiet(c, w) && FINALIZER in w.source.value.finalizers
    requires Found(w.dests, Selector(c, w.source.value)) == {}
    ensures var o := Process(c, w, {});
            o.result.Requeue? && Quiet(c, o.world) && Rank(c, o.world) == 0
  {
    var src := w.source.value;
    var o := Process(c, w, {});
    assert o == EnsureDestination(c, w, src, {});
    var copy := PlaceEffect(c, w, src);
    AfterWrite(c, w, o.world, c.destId, copy);
  }

  /** What a synchronization with a found copy writes, when it writes content at all. */
  lemma SpecEffect(c: Config, w: World, src: Object, d: Object, copy: Object)
    requires c.linkDest && Lookup(w.dests, d.id) == Some(d) && (HasBase(w) ==> PatchPending(c, w, src, d))
    requires var o := if HasBase(w) then PatchObject(d, Base(w.state.value.last, src), Revision(c, src, d), c.subresources)
                      else FullUpdate(c, src, d);
             copy == o.(content := c.admit(o.content))
    ensures var spec := SyncSpec(c, w, src, d, d, {});
            && spec.result.Requeue?
            && spec.world == w.(dests := w.dests[d.id := copy], state := Some(Known(Snapshot(src, c.subresources))))
  {
    PutRemembersSource(c, src, d);
  }

  lemma ContentEffect(c: Config, w: World, id: NsName, copy: Object)
    requires Primary(c) && Quiet(c, w) && FINALIZER in w.source.value.finalizers
    requires Found(w.dests, Selector(c, w.source.value)) == {id}
    requires var src, d := w.source.value, w.dests[id];
             && (HasBase(w) ==> PatchPending(c, w, src, d))
             && var o := if HasBase(w) then PatchObject(d, Base(w.state.value.last, src), Revision(c, src, d), c.subresources)
                         else FullUpdate(c, src, d);
             copy == o.(content := c.admit(o.content))
    ensures var o := Process(c, w, {});
            && o.result.Requeue?
            && o.world.source == w.source && o.world.dests == w.dests[id := copy]
            && o.world.state == Some(Known(Snapshot(w.source.value, c.subresources)))
  {
    var src, d := w.source.value, w.dests[id];
    SpecEffect(c, w, src, d, copy);
    var spec := SyncSpec(c, w, src, d, d, {});
    assert Process(c, w, {}) == SyncContents(c, w, src, src, d, d, {});
  }

  /** A full update restores the state and at most leaves a broken annotation to repair. */
  lemma UpdateStep(c: Config, w: World, id: NsName)
    requires Primary(c) && Quiet(c, w) && FINALIZER in w.source.value.finalizers
    requires Found(w.dests, Selector(c, w.source.value)) == {id} && !HasBase(w)
    ensures var o := Process(c, w, {});
            o.result.Requeue? && Quiet(c, o.world) && Rank(c, o.world) < Rank(c, w)
  {
    var src, d := w.source.value, w.dests[id];
    var u := FullUpdate(c, src, d);
    var copy := u.(content := c.admit(u.content));
    ContentEffect(c, w, id, copy);
    UpdateKeepsLinks(c, src, d);
    AfterWrite(c, w, Process(c, w, {}).world, id, copy);
  }

  /** A full update never touches a link. */
  lemma UpdateKeepsLinks(c: Config, src: Object, d: Object)
    ensures var u := FullUpdate(c, src, d);
            && (Matches(u.labels, Selector(c, src)) <==> Matches(d.labels, Selector(c, src)))
            && (Linked(c.hash, u, KeyOf(c, src)) <==> Linked(c.hash, d, KeyOf(c, src)))
  {
    LinkKeysUnsyncable(c.hash, KeyOf(c, src));
  }

  /** A patch without dropped maps leaves the copy fully linked. */
  lemma PatchRelinks(c: Config, last: Object, src: Object, d: Object)
    requires c.linkDest && Clean(last) && Matches(d.labels, Selector(c, src))
    ensures var next := Revision(c, src, d);
            var p := PatchObject(d, Base(last, src), next, c.subresources);
            && (!Drops(last.labels, next.labels) ==> Matches(p.labels, Selector(c, src)))
            && (Drops(last.labels, next.labels) ==> p.labels == map[])
            && (!Drops(last.annotations, next.annotations) ==> Matches(p.annotations, KeyAnnotations(KeyOf(c, src))))
  {
    LinkKeysUnsyncable(c.hash, KeyOf(c, src));
    var next := Revision(c, src, d);
    if !Drops(last.labels, next.labels) {
      RepairedEntries(d.labels, last.labels, SyncableLabels(src.labels), Selector(c, src));
    }
    if !Drops(last.annotations, next.annotations) {
      RepairedEntries(d.annotations, last.annotations, SyncableAnnotations(src.annotations), KeyAnnotations(KeyOf(c, src)));
    }
  }

  lemma PendingRank(c: Config, w: World, id: NsName)
    requires w.source.Some? && FINALIZER in w.source.value.finalizers
    requires Found(w.dests, Selector(c, w.source.value)) == {id}
    requires HasBase(w) && PatchPending(c, w, w.source.value, w.dests[id])
    ensures var last, next := w.state.value.last, Revision(c, w.source.value, w.dests[id]);
            Rank(c, w) == if Drops(last.labels, next.labels) || Drops(last.annotations, next.annotations) then 2 else 1
  {
    PickOnly({id});
  }

  lemma PatchedRank(c: Config, w: World, w': World, id: NsName, copy: Object)
    requires Primary(c) && Quiet(c, w) && FINALIZER in w.source.value.finalizers
    requires Found(w.dests, Selector(c, w.source.value)) == {id}
    requires HasBase(w) && PatchPending(c, w, w.source.value, w.dests[id])
    requires var d, src := w.dests[id], w.source.value;
             var p := PatchObject(d, Base(w.state.value.last, src), Revision(c, src, d), c.subresources);
             copy == p.(content := c.admit(p.content))
    requires w'.source == w.source && w'.dests == w.dests[id := copy]
    requires w'.state == Some(Known(Snapshot(w.source.value, c.subresources)))
    ensures Quiet(c, w') && Rank(c, w') < Rank(c, w)
  {
    PendingRank(c, w, id);
    PatchRelinks(c, w.state.value.last, w.source.value, w.dests[id]);
    AfterWrite(c, w, w', id, copy);
  }

  /** A merge patch brings the copy up to date, unless it drops links that must then be restored. */
  lemma PatchStep(c: Config, w: World, id: NsName)
    requires Primary(c) && Quiet(c, w) && FINALIZER in w.source.value.finalizers
    requires Found(w.dests, Selector(c, w.source.value)) == {id}
    requires HasBase(w) && PatchPending(c, w, w.source.value, w.dests[id])
    ensures var o := Process(c, w, {});
            o.result.Requeue? && Quiet(c, o.world) && Rank(c, o.world) < Rank(c, w)
  {
    var src, d := w.source.value, w.dests[id];
    var p := PatchObject(d, Base(w.state.value.last, src), Revision(c, src, d), c.subresources);
    var copy := p.(content := c.admit(p.content));
    ContentEffect(c, w, id, copy);
    PatchedRank(c, w, Process(c, w, {}).world, id, copy);
  }

  /** With no patch pending, the copy is linked and the remembered state is the source's. */
  lemma NothingPending(c: Config, w: World, src: Object, d: Object)
    requires c.linkDest && HasBase(w) && SnapshotOf(c, w.state.value.last, src)
    requires Matches(d.labels, Selector(c, src)) && !PatchPending(c, w, src, d)
    ensures Linked(c.hash, d, KeyOf(c, src))
    ensures Base(w.state.value.last, src) == Snapshot(src, c.subresources)
  {
    var last, next := w.state.value.last, Revision(c, src, d);
    var want := KeyAnnotations(KeyOf(c, src));
    LinkKeysUnsyncable(c.hash, KeyOf(c, src));
    forall k | k in want
      ensures k in d.annotations && d.annotations[k] == want[k]
    {
      assert k !in last.annotations && k !in next.annotations;
      assert k !in Missing(d.annotations, want);
    }
    assert Missing(d.annotations, want) == map[] && Missing(d.labels, Selector(c, src)) == map[];
    assert next == Strip(src);
    assert last.content - c.subresources == last.content;
  }

  /** A status update is invisible to everything but the status comparison. */
  lemma StatusInvisible(c: Config, w: World, src: Object, d: Object, status: Option<Json>)
    requires "status" in c.subresources && HasBase(w)
    ensures var src' := WithStatus(src, status);
            && Snapshot(src', c.subresources) == Snapshot(src, c.subresources)
            && (PatchPending(c, w, src', d) <==> PatchPending(c, w, src, d))
  {
    var src' := WithStatus(src, status);
    assert src'.content - c.subresources == src.content - c.subresources;
    assert Revision(c, src', d).content == src'.content;
    assert Revision(c, src, d).content == src.content;
  }

  /** Nothing left to write but the status: the call ends, and both sides agree. */
  lemma FinalStep(c: Config, w: World, id: NsName)
    requires Primary(c) && Quiet(c, w) && FINALIZER in w.source.value.finalizers
    requires Found(w.dests, Selector(c, w.source.value)) == {id}
    requires HasBase(w) && !PatchPending(c, w, w.source.value, w.dests[id])
    ensures var o := Process(c, w, {});
            var statusWritable := "status" in c.subresources || StatusOf(w.source.value) == StatusOf(w.dests[id]);
            && o.result == (if statusWritable then Done else Failed)
            && (statusWritable ==> InSync(c, o.world))
  {
    var src, d := w.source.value, w.dests[id];
    assert SyncSpec(c, w, src, d, d, {}) == Outcome(w, [], Done);
    var o := Process(c, w, {});
    assert o == StatusBack(c, w, src, src, d, {});
    NothingPending(c, w, src, d);
    if StatusOf(src) == StatusOf(d) {
      assert InSync(c, w);
    } else if "status" in c.subresources {
      StatusInvisible(c, w, src, d, StatusOf(d));
      var src' := WithStatus(src, StatusOf(d));
      assert o.world == w.(source := Some(src'));
      assert Selector(c, src') == Selector(c, src);
      assert Linked(c.hash, d, KeyOf(c, src'));
      assert StatusOf(src') == StatusOf(d);
      assert InSync(c, o.world);
    }
  }

  /** Every requeueing call decreases the rank; a call that does not requeue has rank zero. */
  lemma ProcessProgress(c: Config, w: World)
    requires Primary(c) && Quiet(c, w)
    ensures Rank(c, w) <= 3
    ensures var o := Process(c, w, {});
            && (o.result.Requeue? <==> Rank(c, w) > 0)
            && (o.result.Requeue? ==> Quiet(c, o.world) && Rank(c, o.world) < Rank(c, w))
            && (o.result.Done? ==> InSync(c, o.world))
            && (o.result.Failed? ==> "status" !in c.subresources)
  {
    var src := w.source.value;
    var ids := Found(w.dests, Selector(c, src));
    if FINALIZER !in src.finalizers {
      FinalizerStep(c, w);
    } else if ids == {} {
      PlaceStep(c, w);
    } else {
      PickOnly(ids);
      var id := Pick(ids);
      if !HasBase(w) {
        UpdateStep(c, w, id);
      } else if PatchPending(c, w, src, w.dests[id]) {
        PatchStep(c, w, id);
      } else {
        FinalStep(c, w, id);
      }
    }
  }

  /** Repeats Process until it no longer asks for it; returns the last outcome and the requeues. */
  ghost function Settle(c: Config, w: World): (r: (Outcome, nat))
    requires Primary(c) && Quiet(c, w)
    ensures r.1 <= Rank(c, w) <= 3
    ensures !r.0.result.Requeue?
    ensures "status" in c.subresources ==> r.0.result.Done?
    ensures r.0.result.Done? ==> InSync(c, r.0.world)
    decreases Rank(c, w)
  {
    ProcessProgress(c, w);
    var o := Process(c, w, {});
    if o.result.Requeue? then
      var rest := Settle(c, o.world);
      (rest.0, rest.1 + 1)
    else (o, 0)
  }
}
