/**
 What users rely on in the end: a copy that only the agent writes to holds exactly the source's desired
 state whenever a synchronization reports completion -- as long as no state write gets lost.
 */
module Mirroring {
  import opened Options
  import opened MergePatches
  import opened Objects
  import opened ObjectSync
  import opened Links
  import opened NoOrphanRuns

  // ---------------------------------------------------------------- null-free documents

  /** No member of an object, however deep, is null. */
  predicate NullFree(j: Json)
    decreases j
  {
    match j
    case Null => false
    case Obj(fields) => forall k | k in fields :: NullFree(fields[k])
    case _ => true
  }

  predicate NullFreeContent(content: map<string, Json>) {
    forall k | k in content :: NullFree(content[k])
  }

  lemma {:induction false} NullFreeKept(last: Option<Json>, next: Json)
    requires NullFree(next)
    ensures NullsKept(last, Some(next))
    decreases next
  {
    if next.Obj? {
      forall k | k in next.fields
        ensures NullsKept(Field(last, k), Some(next.fields[k]))
      {
        NullFreeKept(Field(last, k), next.fields[k]);
      }
    }
  }

  // ---------------------------------------------------------------- single writes

  /** Apart from subresources, the object holds exactly this content. */
  predicate Holds(o: Object, content: map<string, Json>, subresources: set<string>) {
    o.content - subresources == content - subresources
  }

  /** Patching a copy that holds the last known state makes it hold the new one. */
  lemma PatchHolds(dest: Object, last: Object, next: Object, subresources: set<string>)
    requires Holds(dest, last.content, subresources) && NullFreeContent(next.content)
    ensures Holds(PatchObject(dest, last, next, subresources), next.content, subresources)
  {
    var a, b := last.content - subresources, next.content - subresources;
    var after := PatchContent(dest.content, a, b);
    forall k
      ensures Lookup(after - subresources, k) == Lookup(b, k)
    {
      if k !in subresources {
        assert Lookup(dest.content, k) == Lookup(a, k) by {
          assert Lookup(dest.content - subresources, k) == Lookup(a, k);
        }
        PatchContentReads(dest.content, a, b, k);
        if k in b {
          NullFreeKept(Lookup(a, k), b[k]);
        }
        DiffRoundTrip(Lookup(a, k), Lookup(b, k));
      }
    }
    MapsAgree(after - subresources, b);
  }

  // ---------------------------------------------------------------- runs

  /** The server takes content as it is sent. */
  ghost predicate Verbatim(c: Config) {
    forall x :: c.admit(x) == x
  }

  /** The remembered state is what the copy holds; a copy without remembered state does not occur. */
  predicate MirrorInv(c: Config, w: World) {
    c.destId in w.dests ==>
      && w.dests[c.destId].id == c.destId
      && HasBase(w)
      && Holds(w.dests[c.destId], w.state.value.last.content, c.subresources)
  }

  /**
   The agent synchronizes a null-free version of the source and, where it writes the copy, also gets to
   store its state; everyone else changes at most subresources and metadata of the copy, or removes it.
   */
  ghost predicate MirrorStepOk(c: Config, w: World, step: CopyStep, w': World) {
    match step
    case AgentSyncs(src, f) =>
      && NullFreeContent(src.content) && PutState !in f
      && w' == Sync(c, w, src, Lookup(w.dests, c.destId), f).world
    case Elsewhere(w1) =>
      && w' == w1 && w1.state == w.state
      && (c.destId in w1.dests ==>
            && c.destId in w.dests && w1.dests[c.destId].id == c.destId
            && Holds(w1.dests[c.destId], w.dests[c.destId].content, c.subresources))
  }

  lemma CreationMirrors(c: Config, w: World, s: Object, f: set<Call>)
    requires Linking(c) && Verbatim(c) && PutState !in f && c.destId !in w.dests
    ensures MirrorInv(c, EnsureDestination(c, w, s, f).world)
  {
    var made := EnsureNamespace(c, w, f);
    var o := DesiredCopy(c, s);
    assert made.world.dests == w.dests && made.world.state == w.state;
    assert c.admit(o.content) == s.content;
    assert s.content - c.subresources - c.subresources == s.content - c.subresources;
  }

  lemma PatchMirrors(c: Config, w: World, s: Object, d: Object, f: set<Call>)
    requires Verbatim(c) && PutState !in f && HasBase(w) && NullFreeContent(s.content)
    requires Lookup(w.dests, d.id) == Some(d) && d.id == c.destId
    requires Holds(d, w.state.value.last.content, c.subresources)
    ensures MirrorInv(c, SyncSpec(c, w, s, d, d, f).world)
  {
    var last, next := Base(w.state.value.last, s), Revision(c, s, d);
    assert next.content == s.content && last.content == w.state.value.last.content;
    PatchHolds(d, last, next, c.subresources);
    assert s.content - c.subresources - c.subresources == s.content - c.subresources;
  }

  /** What a synchronization without mutation rules and stamps may do to copy and state. */
  lemma SyncOutcomes(c: Config, w: World, src: Object, dst: Option<Object>, f: set<Call>)
    requires Linking(c)
    ensures var o := Sync(c, w, src, dst, f).world;
            || (o.dests == w.dests && o.state == w.state)
            || (dst.Some? && o.dests == DeleteCopy(c, w, dst.value.id, f).world.dests && o.state == w.state)
            || (dst.None? && o.dests == EnsureDestination(c, w, src, f).world.dests && o.state == EnsureDestination(c, w, src, f).world.state)
            || (dst.Some? && var x := SyncContents(c, w, src, src, dst.value, dst.value, f).world; o.dests == x.dests && o.state == x.state)
  {
  }

  lemma MirrorDepends(c: Config, w: World, w': World)
    requires MirrorInv(c, w) && w'.dests == w.dests && w'.state == w.state
    ensures MirrorInv(c, w')
  {
  }

  lemma DeletionMirrors(c: Config, w: World, w': World, f: set<Call>)
    requires MirrorInv(c, w) && w'.dests == DeleteCopy(c, w, c.destId, f).world.dests && w'.state == w.state
    ensures MirrorInv(c, w')
  {
  }

  lemma StepKeepsMirror(c: Config, w: World, step: CopyStep, w': World)
    requires Linking(c) && !c.statusForward && Verbatim(c)
    requires MirrorInv(c, w) && MirrorStepOk(c, w, step, w')
    ensures MirrorInv(c, w')
  {
    if step.AgentSyncs? {
      var src, f, dst := step.src, step.f, Lookup(w.dests, c.destId);
      SyncOutcomes(c, w, src, dst, f);
      if dst.None? {
        CreationMirrors(c, w, src, f);
        MirrorAfter(c, w, w', EnsureDestination(c, w, src, f).world);
      } else {
        var d := dst.value;
        PatchMirrors(c, w, src, d, f);
        SyncStatusKeeps(c, SyncSpec(c, w, src, d, d, f), src, src, d, d, f);
        MirrorDepends(c, SyncSpec(c, w, src, d, d, f).world, SyncContents(c, w, src, src, d, d, f).world);
        if w'.dests == DeleteCopy(c, w, d.id, f).world.dests && w'.state == w.state {
          DeletionMirrors(c, w, w', f);
        } else {
          MirrorAfter(c, w, w', SyncContents(c, w, src, src, d, d, f).world);
        }
      }
    }
  }

  lemma MirrorAfter(c: Config, w: World, w': World, x: World)
    requires MirrorInv(c, w) && MirrorInv(c, x)
    requires (w'.dests == w.dests && w'.state == w.state) || (w'.dests == x.dests && w'.state == x.state)
    ensures MirrorInv(c, w')
  {
  }

  lemma {:induction false} MirrorInRuns(c: Config, trace: seq<World>, steps: seq<CopyStep>, i: nat)
    requires Linking(c) && !c.statusForward && Verbatim(c)
    requires |trace| == |steps| + 1 && c.destId !in trace[0].dests
    requires forall j | 0 <= j < |steps| :: MirrorStepOk(c, trace[j], steps[j], trace[j + 1])
    requires i < |trace|
    ensures MirrorInv(c, trace[i])
    decreases i
  {
    if i > 0 {
      MirrorInRuns(c, trace, steps, i - 1);
      StepKeepsMirror(c, trace[i - 1], steps[i - 1], trace[i]);
    }
  }

  /**
   In every such run, when a synchronization of a live source reports completion on a live copy, the copy
   holds exactly the content of the source as it was synchronized.
   */
  lemma DoneMeansSame(c: Config, trace: seq<World>, steps: seq<CopyStep>, i: nat)
    requires Linking(c) && !c.statusForward && Verbatim(c)
    requires |trace| == |steps| + 1 && c.destId !in trace[0].dests
    requires forall j | 0 <= j < |steps| :: MirrorStepOk(c, trace[j], steps[j], trace[j + 1])
    requires i < |steps| && steps[i].AgentSyncs? && !steps[i].src.deleting && !c.forceDelete
    requires c.destId in trace[i].dests && !trace[i].dests[c.destId].deleting
    requires Sync(c, trace[i], steps[i].src, Lookup(trace[i].dests, c.destId), steps[i].f).result.Done?
    ensures c.destId in trace[i + 1].dests
    ensures Holds(trace[i + 1].dests[c.destId], steps[i].src.content, c.subresources)
  {
    MirrorInRuns(c, trace, steps, i);
    var w, src, d := trace[i], steps[i].src, trace[i].dests[c.destId];
    DonePending(c, w, src, d, steps[i].f);
    assert MirrorStepOk(c, w, steps[i], trace[i + 1]);
  }

  // ---------------------------------------------------------------- a lost state write

  lemma PatchMapSame(dest: map<string, string>, last: map<string, string>)
    ensures PatchMap(dest, last, last) == dest
  {
  }

  /** A patch that changes content only leaves the metadata of the copy as it was. */
  lemma ContentPatch(dest: Object, last: Object, next: Object, subresources: set<string>)
    requires next.labels == last.labels && next.annotations == last.annotations
    ensures PatchObject(dest, last, next, subresources) == dest.(content := PatchObject(dest, last, next, subresources).content)
  {
    PatchMapSame(dest.labels, last.labels);
    PatchMapSame(dest.annotations, last.annotations);
  }

  /** Both sides agree on s0, as far as the agent can tell. */
  predicate Settled(c: Config, w: World, s0: Object, d: Object) {
    && Lookup(w.dests, d.id) == Some(d) && !d.deleting
    && !s0.deleting && !c.forceDelete && (c.blockDeletion ==> FINALIZER in s0.finalizers)
    && HasBase(w) && !PatchPending(c, w, s0, d)
    && Holds(d, s0.content, c.subresources)
  }

  /** The copy after the content of s1 has been patched onto it. */
  function Patched(c: Config, w: World, s1: Object, d: Object): Object
    requires HasBase(w)
  {
    PatchObject(d, Base(w.state.value.last, s1), Revision(c, s1, d), c.subresources)
  }

  lemma PatchedHolds(c: Config, w: World, s0: Object, s1: Object, d: Object)
    requires Settled(c, w, s0, d) && s1 == s0.(content := s1.content) && NullFreeContent(s1.content)
    ensures Holds(Patched(c, w, s1, d), s1.content, c.subresources)
    ensures Patched(c, w, s1, d) == d.(content := Patched(c, w, s1, d).content)
  {
    var last, next := Base(w.state.value.last, s1), Revision(c, s1, d);
    PatchHolds(d, last, next, c.subresources);
    ContentPatch(d, last, next, c.subresources);
  }

  /** The patch succeeds, the state write fails: the copy has moved on, the remembered state has not. */
  lemma FailedPut(c: Config, w: World, s0: Object, s1: Object, d: Object)
    requires Linking(c) && Verbatim(c) && Settled(c, w, s0, d)
    requires s1 == s0.(content := s1.content) && NullFreeContent(s1.content) && !Holds(s1, s0.content, c.subresources)
    ensures var o := Sync(c, w, s1, Some(d), {PutState});
            o.result.Failed? && o.world == w.(dests := w.dests[d.id := Patched(c, w, s1, d)])
  {
    assert PatchPending(c, w, s1, d);
    var p := Patched(c, w, s1, d);
    assert p.(content := c.admit(p.content)) == p;
    assert SyncSpec(c, w, s1, d, d, {PutState}) == Outcome(w.(dests := w.dests[d.id := p]), [PatchDest], Failed);
  }

  /**
   When the state write after a patch fails and the user takes the change back before the next
   synchronization, the agent sees nothing to do: it reports completion on a copy that keeps the change.
   The configuration is that of every primary object, with the status in step on both sides.
   */
  lemma LostStateWriteDiverges(c: Config, w: World, s0: Object, s1: Object, d: Object)
    requires Linking(c) && Verbatim(c) && !c.statusForward && Settled(c, w, s0, d)
    requires c.statusBack && "status" in c.subresources && StatusOf(s0) == StatusOf(d)
    requires s1 == s0.(content := s1.content) && NullFreeContent(s1.content) && !Holds(s1, s0.content, c.subresources)
    ensures var w1 := Sync(c, w, s1, Some(d), {PutState}).world;
            && d.id in w1.dests
            && Sync(c, w1, s0, Some(w1.dests[d.id]), {}).result.Done?
            && Sync(c, w1, s0, Some(w1.dests[d.id]), {}).world == w1
            && Holds(w1.dests[d.id], s1.content, c.subresources)
            && !Holds(w1.dests[d.id], s0.content, c.subresources)
  {
    FailedPut(c, w, s0, s1, d);
    PatchedHolds(c, w, s0, s1, d);
    var w1 := w.(dests := w.dests[d.id := Patched(c, w, s1, d)]);
    PatchContentReads(d.content, Base(w.state.value.last, s1).content - c.subresources, Revision(c, s1, d).content - c.subresources, "status");
    assert StatusOf(w1.dests[d.id]) == StatusOf(d);
    assert Revision(c, s0, w1.dests[d.id]) == Revision(c, s0, d);
    assert !PatchPending(c, w1, s0, w1.dests[d.id]);
  }
}
