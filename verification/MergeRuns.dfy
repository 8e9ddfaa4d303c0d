/**
 Every patch that is sent in a run is the JSON merge patch of section 2 of RFC 7396 between the last
 known state and the source: what the state store holds always makes the two comparable.
 */
module MergeRuns {
  import opened Options
  import opened MergePatches
  import opened Objects
  import opened ObjectSync
  import opened Convergence
  import opened Related
  import opened Lifecycle
  import opened NoOrphanRuns

  /** The patch as it is computed from the encoded versions. */
  function SentPatch(c: Config, last: Object, s: Object, d: Object): Option<Json> {
    CreateMergePatch(Base(last, s), Revision(c, s, d), c.subresources)
  }

  /** What is remembered of a source can be compared with every later version of it. */
  lemma RememberedComparable(c: Config, last: Object, s: Object, d: Object)
    requires Remembers(last, s.id) && !s.deleting && WellFormed(s)
    ensures Comparable(Base(last, s), Revision(c, s, d))
  {
  }

  /** The patch is empty exactly when none is pending, and has the modelled effect on any copy. */
  ghost predicate IsThePatch(c: Config, last: Object, s: Object, d: Object) {
    var patch := SentPatch(c, last, s, d);
    && (patch.None? <==> !NeedsPatch(Base(last, s), Revision(c, s, d), c.subresources))
    && forall j, o | Denotes(j, o) ::
         Denotes(Apply(j, patch), PatchObject(o, Base(last, s), Revision(c, s, d), c.subresources))
  }

  lemma RememberedPatch(c: Config, last: Object, s: Object, d: Object)
    requires Remembers(last, s.id) && !s.deleting && WellFormed(s)
    ensures IsThePatch(c, last, s, d)
  {
    RememberedComparable(c, last, s, d);
    PatchEmptyIffUnchanged(Base(last, s), Revision(c, s, d), c.subresources);
    forall j, o | Denotes(j, o)
      ensures Denotes(Apply(j, SentPatch(c, last, s, d)), PatchObject(o, Base(last, s), Revision(c, s, d), c.subresources))
    {
      PatchObjectIsMergePatch(j, o, Base(last, s), Revision(c, s, d), c.subresources);
    }
  }

  /** Any synchronization, of primary or related objects, with mutation rules or without. */
  lemma SyncSendsMergePatch(c: Config, w: World, src: Object, dst: Object)
    requires BlobOk(w.state, src.id) && HasBase(w)
    requires WellFormed(src) && !src.deleting && ContentOnly(c.mutator)
    ensures var s := MutatedSource(c, src, Some(dst));
            IsThePatch(c, w.state.value.last, s, MutatedDest(c, s, dst))
  {
    var s := MutatedSource(c, src, Some(dst));
    RememberedPatch(c, w.state.value.last, s, MutatedDest(c, s, dst));
  }

  /** In a related-resource pass: at the n-th resolved object, whatever happened before. */
  lemma PassSendsMergePatch(a: Agent, r: Rule, cluster: string, primary: NsName, w: RelWorld, ts: seq<Attempt>, n: nat)
    requires StateOk(w.state) && ContentOnly(r.mutator) && (forall t | t in ts :: WellFormed(t.original))
    requires n < |ts| && !ts[n].original.deleting
    ensures var w1 := SyncAll(a, r, cluster, primary, w, ts[..n], false).world;
            var c := PassConfig(a, r, cluster, primary, ts[n], false);
            var slot := Slot(w1, AttemptKey(r, cluster, ts[n]));
            HasBase(slot) && CopyView(w1, ts[n]).Some? ==>
              var s := MutatedSource(c, ts[n].original, CopyView(w1, ts[n]));
              IsThePatch(c, slot.state.value.last, s, MutatedDest(c, s, CopyView(w1, ts[n]).value))
  {
    SyncAllFrame(a, r, cluster, primary, w, ts[..n], false);
    var w1 := SyncAll(a, r, cluster, primary, w, ts[..n], false).world;
    var slot := Slot(w1, AttemptKey(r, cluster, ts[n]));
    if HasBase(slot) && CopyView(w1, ts[n]).Some? {
      SyncSendsMergePatch(PassConfig(a, r, cluster, primary, ts[n], false), slot, ts[n].original, CopyView(w1, ts[n]).value);
    }
  }

  // ---------------------------------------------------------------- the primary, over runs

  lemma PatchedSpec(c: Config, w: World, src: Object, d: Object, f: set<Call>)
    requires HasBase(w) && PatchPending(c, w, src, d) && ReadState !in f && PatchDest !in f && d.id in w.dests
    ensures var o := SyncSpec(c, w, src, d, d, f);
            var p := PatchObject(w.dests[d.id], Base(w.state.value.last, src), Revision(c, src, d), c.subresources);
            !o.result.Done? && o.world.dests == w.dests[d.id := p.(content := c.admit(p.content))]
  {
  }

  lemma PatchedOutcome(c: Config, w: World, src: Object, d: Object, f: set<Call>)
    requires Primary(c) && !src.deleting && FINALIZER in src.finalizers && !d.deleting
    requires HasBase(w) && PatchPending(c, w, src, d)
    requires ReadState !in f && PatchDest !in f && d.id in w.dests
    ensures var o := Sync(c, w, src, Some(d), f);
            var p := PatchObject(w.dests[d.id], Base(w.state.value.last, src), Revision(c, src, d), c.subresources);
            !o.result.Done? && o.world.dests == w.dests[d.id := p.(content := c.admit(p.content))]
  {
    var spec := SyncSpec(c, w, src, d, d, f);
    PatchedSpec(c, w, src, d, f);
    SyncStatusKeeps(c, spec, src, src, d, d, f);
  }

  lemma PatchedCommit(st: Setup, m: Machine, k: Key, ch: Chance)
    requires k in m.running && k in m.state && EntryKey(k) in m.state[k]
    requires var v := m.running[k];
             && v.copy.Some? && !v.copy.value.deleting && !v.source.deleting && FINALIZER in v.source.finalizers
             && ReadState !in ch.faults && PatchDest !in ch.faults && v.copy.value.id in m.service
             && m.state[k][EntryKey(k)].Known?
             && NeedsPatch(Base(m.state[k][EntryKey(k)].last, v.source),
                           Revision(PrimaryConfig(st, k, v.source), v.source, v.copy.value), st.subresources)
    ensures var c, v := PrimaryConfig(st, k, m.running[k].source), m.running[k];
            var d, last := v.copy.value, m.state[k][EntryKey(k)].last;
            var p := PatchObject(m.service[d.id], Base(last, v.source), Revision(c, v.source, d), st.subresources);
            AfterCommit(st, m, k, ch).service == m.service[d.id := p.(content := st.agent.admit(p.content))]
  {
    var v, sys := m.running[k], SysOf(m, k);
    var c := PrimaryConfig(st, k, v.source);
    var w := World(sys.primary, sys.dests, NamespacesOf(sys.namespaces, ""), Lookup(sys.state, EntryKey(k)));
    PatchedOutcome(c, w, v.source, v.copy.value, ch.faults);
    assert Finish(st, k, sys, v, ch) == SyncPrimary(st, k, sys, v, ch.faults);
  }

  /** The primary's last known state is there and can be read, a patch is due, and nothing stands in its way. */
  predicate PatchDue(st: Setup, m: Machine, k: Key, f: set<Call>) {
    && k in m.running && k in m.state && EntryKey(k) in m.state[k] && m.state[k][EntryKey(k)].Known?
    && var v := m.running[k];
    && v.copy.Some? && !v.copy.value.deleting && !v.source.deleting && FINALIZER in v.source.finalizers
    && ReadState !in f && PatchDest !in f && v.copy.value.id in m.service
    && DuePatch(st, m, k).Some?
  }

  /** The patch between the last known state and the source. */
  function DuePatch(st: Setup, m: Machine, k: Key): Option<Json>
    requires k in m.running && k in m.state && EntryKey(k) in m.state[k] && m.state[k][EntryKey(k)].Known?
    requires m.running[k].copy.Some?
  {
    var v := m.running[k];
    SentPatch(PrimaryConfig(st, k, v.source), m.state[k][EntryKey(k)].last, v.source, v.copy.value)
  }

  lemma DueIsThePatch(st: Setup, m: Machine, k: Key, f: set<Call>)
    requires PatchDue(st, m, k, f) && StateOk(m.state[k]) && m.running[k].source.id == k.id && WellFormed(m.running[k].source)
    ensures var v := m.running[k];
            IsThePatch(PrimaryConfig(st, k, v.source), m.state[k][EntryKey(k)].last, v.source, v.copy.value)
  {
    var v := m.running[k];
    assert BlobOk(Some(m.state[k][EntryKey(k)]), k.id);
    RememberedPatch(PrimaryConfig(st, k, v.source), m.state[k][EntryKey(k)].last, v.source, v.copy.value);
  }

  /** The copy has become, up to admission, what the due patch makes of it. */
  ghost predicate PatchSent(st: Setup, m: Machine, k: Key, m': Machine, patched: Object)
    requires PatchDue(st, m, k, {})
  {
    var id := m.running[k].copy.value.id;
    && Denotes(Apply(Encode(m.service[id], {}), DuePatch(st, m, k)), patched)
    && m'.service == m.service[id := patched.(content := st.agent.admit(patched.content))]
  }

  lemma CommitSendsMergePatch(st: Setup, m: Machine, k: Key, ch: Chance) returns (patched: Object)
    requires PatchDue(st, m, k, ch.faults)
    requires StateOk(m.state[k]) && m.running[k].source.id == k.id && WellFormed(m.running[k].source)
    ensures PatchSent(st, m, k, AfterCommit(st, m, k, ch), patched)
  {
    var v, last := m.running[k], m.state[k][EntryKey(k)].last;
    var c, d := PrimaryConfig(st, k, v.source), v.copy.value;
    DueIsThePatch(st, m, k, ch.faults);
    EncodeDenotes(m.service[d.id]);
    patched := PatchObject(m.service[d.id], Base(last, v.source), Revision(c, v.source, d), c.subresources);
    PatchedCommit(st, m, k, ch);
  }

  lemma StepSendsMergePatch(st: Setup, m: Machine, step: Step) returns (patched: Object)
    requires step.Commit? && Allowed(st, m, step) && PatchDue(st, m, step.k, step.chance.faults)
    requires StateOk(m.state[step.k]) && m.running[step.k].source.id == step.k.id && WellFormed(m.running[step.k].source)
    ensures PatchSent(st, m, step.k, After(st, m, step), patched)
  {
    patched := CommitSendsMergePatch(st, m, step.k, step.chance);
  }

  lemma RunningInRuns(st: Setup, trace: seq<Machine>, steps: seq<Step>, i: nat, k: Key)
    requires ValidSetup(st) && IsRun(st, trace, steps) && i < |trace| && k in trace[i].running && k in trace[i].state
    ensures var v := trace[i].running[k];
            StateOk(trace[i].state[k]) && v.source.id == k.id && WellFormed(v.source)
  {
    InvInRuns(st, trace, steps, i);
  }

  /**
   In every run: when a commit patches the copy, what the service cluster holds afterwards is, up to
   admission, the object that the merge patch between last known state and source makes of the copy.
   */
  lemma CommitsSendMergePatches(st: Setup, trace: seq<Machine>, steps: seq<Step>, i: nat) returns (patched: Object)
    requires ValidSetup(st) && IsRun(st, trace, steps) && i < |steps| && steps[i].Commit?
    requires PatchDue(st, trace[i], steps[i].k, steps[i].chance.faults)
    ensures PatchSent(st, trace[i], steps[i].k, trace[i + 1], patched)
  {
    RunningInRuns(st, trace, steps, i, steps[i].k);
    patched := StepSendsMergePatch(st, trace[i], steps[i]);
  }
}
