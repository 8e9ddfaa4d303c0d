/**
 No orphans: over every run of the lifecycle machine, a copy the agent has placed exists only while
 its source exists and is held back by the cleanup finalizer -- as long as no patch drops the copy's
 links. A patch that does can be followed by a run that leaves an orphan.
 */
module NoOrphanRuns {
  import opened Options
  import opened MergePatches
  import opened Objects
  import opened ObjectSync
  import opened Convergence
  import opened Related
  import opened Lifecycle

  // ---------------------------------------------------------------- what related passes leave alone

  predicate SameButAnnotations(p: Option<Object>, p': Option<Object>) {
    && p'.Some? == p.Some?
    && (p.Some? ==> p'.value == p.value.(annotations := p'.value.annotations))
  }

  lemma EnsureDestinationState(c: Config, w: World, s: Object, f: set<Call>)
    ensures var w' := EnsureDestination(c, w, s, f).world;
            w'.state == w.state || w'.state == Some(Known(Snapshot(s, c.subresources)))
    ensures EnsureDestination(c, w, s, f).world.source == w.source
  {
  }

  lemma SyncSpecState(c: Config, w: World, s: Object, read: Object, d: Object, f: set<Call>)
    ensures var w' := SyncSpec(c, w, s, read, d, f).world;
            || w'.state == w.state
            || w'.state == Some(Known(Snapshot(Revision(c, s, d), c.subresources)))
            || w'.state == Some(Known(Snapshot(Strip(s), c.subresources)))
    ensures SyncSpec(c, w, s, read, d, f).world.source == w.source
  {
  }

  lemma SyncStatusKeeps(c: Config, spec: Outcome, src: Object, s: Object, read: Object, d: Object, f: set<Call>)
    ensures var w, w' := spec.world, SyncStatus(c, spec, src, s, read, d, f).world;
            && w'.state == w.state
            && (!c.statusForward ==> w'.dests == w.dests)
            && (w'.source == w.source || (w.source == Some(src) && w'.source.Some? && ButStatus(w'.source.value) == ButStatus(src)))
  {
  }

  lemma SyncStatusLog(c: Config, spec: Outcome, src: Object, s: Object, read: Object, d: Object, f: set<Call>)
    ensures forall call | call in SyncStatus(c, spec, src, s, read, d, f).log :: call in spec.log || call in STATUS_CALLS
  {
  }

  lemma SyncContentsKeeps(c: Config, w: World, src: Object, s: Object, read: Object, d: Object, f: set<Call>)
    ensures var w' := SyncContents(c, w, src, s, read, d, f).world;
            var spec := SyncSpec(c, w, s, read, d, f).world;
            && w'.state == spec.state
            && (!c.statusForward ==> w'.dests == spec.dests)
            && (w'.source == w.source || (w.source == Some(src) && w'.source.Some? && ButStatus(w'.source.value) == ButStatus(src)))
    ensures Placing(SyncContents(c, w, src, s, read, d, f).log) ==> Placing(SyncSpec(c, w, s, read, d, f).log)
  {
    SyncSpecState(c, w, s, read, d, f);
    SyncStatusKeeps(c, SyncSpec(c, w, s, read, d, f), src, s, read, d, f);
    SyncStatusLog(c, SyncSpec(c, w, s, read, d, f), src, s, read, d, f);
  }

  /** A snapshot of a live object, repaired on the way or not, can be relied on. */
  lemma SnapshotRemembers(c: Config, s: Object, d: Object)
    requires !s.deleting && WellFormed(s)
    ensures Remembers(Snapshot(s, c.subresources), s.id)
    ensures Remembers(Snapshot(Strip(s), c.subresources), s.id)
    ensures Remembers(Snapshot(Revision(c, s, d), c.subresources), s.id)
  {
    SnapshotClean(s, c.subresources);
    SnapshotClean(Strip(s), c.subresources);
    SnapshotClean(Revision(c, s, d), c.subresources);
  }

  lemma SyncKeepsStateOk(c: Config, w: World, src: Object, dst: Option<Object>, f: set<Call>)
    requires BlobOk(w.state, src.id) && WellFormed(src) && ContentOnly(c.mutator)
    ensures BlobOk(Sync(c, w, src, dst, f).world.state, src.id)
  {
    if !src.deleting && !c.forceDelete {
      var s := MutatedSource(c, src, dst);
      if dst.None? {
        SnapshotRemembers(c, s, src);
        EnsureDestinationState(c, w, s, f);
      } else {
        var d := MutatedDest(c, s, dst.value);
        SnapshotRemembers(c, s, d);
        SyncSpecState(c, w, s, dst.value, d, f);
        SyncContentsKeeps(c, w, src, s, dst.value, d, f);
      }
    }
  }

  lemma {:induction false} SyncAllFrame(a: Agent, r: Rule, cluster: string, primary: NsName, w: RelWorld, ts: seq<Attempt>, deleting: bool)
    requires StateOk(w.state) && ContentOnly(r.mutator) && forall t | t in ts :: WellFormed(t.original)
    ensures var w' := SyncAll(a, r, cluster, primary, w, ts, deleting).world;
            w'.primary == w.primary && StateOk(w'.state)
    decreases |ts|
  {
    if ts != [] {
      var t := ts[|ts|-1];
      SyncAllFrame(a, r, cluster, primary, w, ts[..|ts|-1], deleting);
      var w1 := SyncAll(a, r, cluster, primary, w, ts[..|ts|-1], deleting).world;
      var key := AttemptKey(r, cluster, t);
      SyncKeepsStateOk(PassConfig(a, r, cluster, primary, t, deleting), Slot(w1, key), t.original, CopyView(w1, t), t.faults);
    }
  }

  lemma ConcludeFrame(a: Agent, r: Rule, cluster: string, view: Object, synced: RelOutcome, env: PassEnv, deleting: bool)
    ensures var w' := Conclude(a, r, cluster, view, synced, env, deleting).world;
            SameButAnnotations(synced.world.primary, w'.primary) && w'.state == synced.world.state
  {
  }

  /** What running related-resource rules does to the rest of the system. */
  predicate Framed(before: Sys, after: Sys) {
    SameButAnnotations(before.primary, after.primary) && after.dests == before.dests && StateOk(after.state)
  }

  /** All objects a call resolves are objects. */
  ghost predicate Sound(envs: nat -> PassEnv) {
    forall i: nat {:trigger envs(i)} :: forall t | t in envs(i).attempts :: WellFormed(t.original)
  }

  ghost predicate SoundRules(st: Setup) {
    forall r | r in st.rules :: ContentOnly(r.mutator)
  }

  lemma RunRuleFrame(st: Setup, k: Key, sys: Sys, view: Object, r: Rule, env: PassEnv, deleting: bool)
    requires StateOk(sys.state) && ContentOnly(r.mutator) && forall t | t in env.attempts :: WellFormed(t.original)
    ensures Framed(sys, RunRule(st, k, sys, view, r, env, deleting).sys)
  {
    var w := RuleWorld(k, r, sys);
    SyncAllFrame(st.agent, r, k.cluster, view.id, w, env.attempts, deleting);
    ConcludeFrame(st.agent, r, k.cluster, view, SyncAll(st.agent, r, k.cluster, view.id, w, env.attempts, deleting), env, deleting);
  }

  lemma FramedTrans(a: Sys, b: Sys, c: Sys)
    requires Framed(a, b) && Framed(b, c)
    ensures Framed(a, c)
  {
  }

  lemma RunRulesFrame(st: Setup, k: Key, sys: Sys, view: Object, envs: nat -> PassEnv, deleting: bool)
    requires StateOk(sys.state) && SoundRules(st) && Sound(envs)
    ensures Framed(sys, RunRules(st, k, sys, view, |st.rules|, envs, deleting).sys)
  {
    var P := (n: nat, o: SysOutcome) => Framed(sys, o.sys);
    forall n: nat, o | n < |st.rules| && P(n, o)
      ensures P(n + 1, OrElse(o, RunRule(st, k, o.sys, view, st.rules[n], envs(n), deleting)))
    {
      if o.result.Done? {
        var r := st.rules[n];
        assert r in st.rules;
        RunRuleFrame(st, k, o.sys, view, r, envs(n), deleting);
        FramedTrans(sys, o.sys, RunRule(st, k, o.sys, view, r, envs(n), deleting).sys);
      }
    }
    assert P(0, SysOutcome(sys, [], Done));
    RunRulesInduction(st, k, sys, view, |st.rules|, envs, deleting, P);
  }

  lemma {:induction false} RunRulesLog(st: Setup, k: Key, sys: Sys, view: Object, n: nat, envs: nat -> PassEnv, deleting: bool)
    requires n <= |st.rules|
    ensures RunRules(st, k, sys, view, n, envs, deleting).log == []
  {
    if n > 0 {
      RunRulesLog(st, k, sys, view, n - 1, envs, deleting);
    }
  }

  // ---------------------------------------------------------------- what a call does to copy and source

  /** The labels that link copies to sources are the same. */
  predicate SameLinks(l: map<string, string>, l': map<string, string>) {
    forall x | x in UNSYNCABLE_LABELS :: Lookup(l', x) == Lookup(l, x)
  }

  lemma SameLinksMatch(l: map<string, string>, l': map<string, string>, hash: Hash, key: ObjectKey)
    requires SameLinks(l, l')
    ensures Matches(l', KeyLabels(hash, key)) <==> Matches(l, KeyLabels(hash, key))
  {
    forall x | x in KeyLabels(hash, key)
      ensures Lookup(l', x) == Lookup(l, x)
    {
      assert x in UNSYNCABLE_LABELS;
    }
  }

  /** The patch about to be sent would drop the labels of the copy, links included. */
  predicate WouldDrop(w: World, src: Object, dst: Option<Object>, f: set<Call>) {
    && dst.Some? && !dst.value.deleting && !src.deleting && FINALIZER in src.finalizers
    && HasBase(w) && Drops(w.state.value.last.labels, SyncableLabels(src.labels))
    && ReadState !in f && PatchDest !in f && dst.value.id in w.dests
  }

  lemma PatchMapElsewhere(dest: map<string, string>, last: map<string, string>, next: map<string, string>, x: string)
    requires x !in last && x !in next && !Drops(last, next)
    ensures Lookup(PatchMap(dest, last, next), x) == Lookup(dest, x)
  {
  }

  lemma PatchLinks(c: Config, w: World, src: Object, d: Object, o: Object)
    requires c.linkDest && HasBase(w) && Clean(w.state.value.last)
    requires Matches(d.labels, Selector(c, src))
    ensures var p := PatchObject(o, Base(w.state.value.last, src), Revision(c, src, d), c.subresources);
            if Drops(w.state.value.last.labels, SyncableLabels(src.labels)) then p.labels == map[]
            else SameLinks(o.labels, p.labels)
  {
    var last, next := w.state.value.last.labels, SyncableLabels(src.labels);
    assert Missing(d.labels, Selector(c, src)) == map[];
    assert Revision(c, src, d).labels == next;
    if !Drops(last, next) {
      forall x | x in UNSYNCABLE_LABELS
        ensures Lookup(PatchMap(o.labels, last, next), x) == Lookup(o.labels, x)
      {
        assert !SyncableLabel(x);
        PatchMapElsewhere(o.labels, last, next, x);
      }
    }
  }

  lemma UpdateLinks(c: Config, src: Object, d: Object)
    ensures SameLinks(d.labels, FullUpdate(c, src, d).labels)
  {
    forall x | x in UNSYNCABLE_LABELS
      ensures Lookup(FullUpdate(c, src, d).labels, x) == Lookup(d.labels, x)
    {
      assert !SyncableLabel(x);
      assert x !in SyncableLabels(src.labels);
    }
  }

  /** How one synchronization of a primary may change its copy, when it does not place one. */
  ghost predicate CopyKept(dests: map<NsName, Object>, dests': map<NsName, Object>, id: NsName, dropped: bool) {
    && (forall x | x != id :: Lookup(dests', x) == Lookup(dests, x))
    && (dropped ==> id in dests')
    && (id in dests' ==>
          && id in dests && dests'[id].id == dests[id].id
          && if dropped then dests'[id].labels == map[] else SameLinks(dests[id].labels, dests'[id].labels))
  }

  lemma PatchCopyKept(c: Config, w: World, src: Object, d: Object, f: set<Call>)
    requires Primary(c) && HasBase(w) && Clean(w.state.value.last) && Matches(d.labels, Selector(c, src))
    ensures var o := PatchCopy(c, w, src, d, f);
            CopyKept(w.dests, o.world.dests, d.id,
                     Drops(w.state.value.last.labels, SyncableLabels(src.labels)) && PatchDest !in f && d.id in w.dests)
  {
    if d.id in w.dests {
      PatchLinks(c, w, src, d, w.dests[d.id]);
    }
  }

  lemma UpdateCopyKept(c: Config, w: World, src: Object, d: Object, f: set<Call>)
    requires Primary(c) && Matches(d.labels, Selector(c, src))
    ensures CopyKept(w.dests, UpdateCopy(c, w, src, d, d, f).world.dests, d.id, false)
  {
    UpdateLinks(c, src, d);
  }

  /** A dropped label makes the patch non-empty. */
  lemma DropMeansPatch(c: Config, w: World, src: Object, d: Object)
    requires c.linkDest && HasBase(w) && Matches(d.labels, Selector(c, src))
    requires Drops(w.state.value.last.labels, SyncableLabels(src.labels))
    ensures PatchPending(c, w, src, d)
  {
    assert Missing(d.labels, Selector(c, src)) == map[];
    assert Revision(c, src, d).labels == SyncableLabels(src.labels);
  }

  lemma SyncSpecDests(c: Config, w: World, s: Object, read: Object, d: Object, f: set<Call>)
    ensures var o := SyncSpec(c, w, s, read, d, f);
            && o.world.dests == (if ReadState in f || (HasBase(w) && !PatchPending(c, w, s, d)) then w.dests
                                 else WriteSpec(c, w, s, read, d, f).world.dests)
            && !Placing(o.log)
  {
  }

  lemma SpecCopyKept(c: Config, w: World, src: Object, d: Object, f: set<Call>)
    requires Primary(c) && BlobOk(w.state, src.id) && Matches(d.labels, Selector(c, src))
    requires !src.deleting && FINALIZER in src.finalizers && !d.deleting
    ensures var o := SyncSpec(c, w, src, d, d, f);
            CopyKept(w.dests, o.world.dests, d.id, WouldDrop(w, src, Some(d), f)) && !Placing(o.log)
  {
    SyncSpecDests(c, w, src, d, d, f);
    if HasBase(w) {
      PatchCopyKept(c, w, src, d, f);
      if Drops(w.state.value.last.labels, SyncableLabels(src.labels)) {
        DropMeansPatch(c, w, src, d);
      }
    } else {
      UpdateCopyKept(c, w, src, d, f);
    }
  }

  lemma SyncCopyKept(c: Config, w: World, src: Object, dst: Object, f: set<Call>)
    requires Primary(c) && BlobOk(w.state, src.id) && Matches(dst.labels, Selector(c, src))
    requires FINALIZER in src.finalizers
    ensures var o := Sync(c, w, src, Some(dst), f);
            CopyKept(w.dests, o.world.dests, dst.id, WouldDrop(w, src, Some(dst), f)) && !Placing(o.log)
  {
    if !src.deleting && !dst.deleting {
      SpecCopyKept(c, w, src, dst, f);
      SyncContentsKeeps(c, w, src, src, dst, dst, f);
    }
  }

  /** A synchronization that places a copy does so under the configured name, with the right links. */
  predicate CopyPlaced(c: Config, src: Object, dests: map<NsName, Object>, dests': map<NsName, Object>) {
    && c.destId in dests' && dests' == dests[c.destId := dests'[c.destId]]
    && (c.destId in dests ==> dests'[c.destId].id == dests[c.destId].id)
    && (c.destId !in dests ==> dests'[c.destId].id == c.destId)
    && Matches(dests'[c.destId].labels, Selector(c, src))
  }

  lemma PlaceCopyPlaces(c: Config, w: World, s: Object, f: set<Call>)
    requires Primary(c)
    ensures var o := PlaceCopy(c, w, s, f);
            && o.world.source == w.source
            && if o.result.Failed? then o.world == w && o.log == []
               else CopyPlaced(c, s, w.dests, o.world.dests) && Placing(o.log)
  {
    DesiredCopyLinked(c, s);
  }

  /** Creating a copy: namespace, copy and state in turn, each only if the one before succeeded. */
  lemma PlacingThen(first: Outcome, next: Outcome)
    ensures Placing(Then(first, next).log) <==> Placing(first.log) || (!first.result.Failed? && Placing(next.log))
  {
  }

  lemma EnsurePlaces(c: Config, w: World, s: Object, f: set<Call>)
    requires Primary(c)
    ensures var o := EnsureDestination(c, w, s, f);
            if Placing(o.log) then CopyPlaced(c, s, w.dests, o.world.dests) else o.world.dests == w.dests
  {
    var made := EnsureNamespace(c, w, f);
    assert made.world.dests == w.dests && !Placing(made.log);
    var copied := PlaceCopy(c, made.world, s, f);
    PlaceCopyPlaces(c, made.world, s, f);
    var placed := Then(made, copied);
    PlacingThen(made, copied);
    var put := PutSnapshot(c, placed.world, s, f);
    assert put.world.dests == placed.world.dests && !Placing(put.log);
    PlacingThen(placed, put);
  }

  lemma SyncPlaces(c: Config, w: World, src: Object, f: set<Call>)
    requires Primary(c)
    ensures var o := Sync(c, w, src, None, f);
            if Placing(o.log) then
              && !src.deleting && FINALIZER in src.finalizers
              && CopyPlaced(c, src, w.dests, o.world.dests)
            else o.world.dests == w.dests
  {
    EnsurePlaces(c, w, src, f);
  }

  predicate Held(p: Option<Object>) {
    p.Some? && FINALIZER in p.value.finalizers
  }

  predicate SourceKept(p: Option<Object>, p': Option<Object>, releasing: bool) {
    && (p'.Some? ==>
          && p.Some? && p'.value.id == p.value.id && p'.value.deleting == p.value.deleting && p'.value.labels == p.value.labels
          && (WellFormed(p.value) ==> WellFormed(p'.value)))
    && (Held(p) && !releasing ==> Held(p'))
  }

  lemma PatchFinalizersKeeps(w: World, fs: set<string>, f: set<Call>, releasing: bool)
    requires releasing || FINALIZER in fs
    ensures SourceKept(w.source, PatchFinalizers(w, fs, f).world.source, releasing)
  {
  }

  lemma ButStatusWellFormed(a: Object, b: Object)
    requires ButStatus(a) == ButStatus(b)
    ensures WellFormed(a) <==> WellFormed(b)
    ensures a.id == b.id && a.deleting == b.deleting && a.labels == b.labels && a.finalizers == b.finalizers
  {
    assert "status" !in RESERVED;
    forall x | x in RESERVED
      ensures x in a.content <==> x in b.content
    {
      assert x in ButStatus(a).content <==> x in ButStatus(b).content;
    }
  }

  lemma StatusKeepsSource(p: Option<Object>, p': Option<Object>, releasing: bool)
    requires p.Some? && p'.Some? && ButStatus(p'.value) == ButStatus(p.value)
    ensures SourceKept(p, p', releasing)
  {
    ButStatusWellFormed(p'.value, p.value);
  }

  lemma SyncKeepsSource(c: Config, w: World, src: Object, dst: Option<Object>, f: set<Call>)
    requires Primary(c)
    ensures SourceKept(w.source, Sync(c, w, src, dst, f).world.source, src.deleting && dst.None?)
  {
    if src.deleting {
      PatchFinalizersKeeps(w, src.finalizers - {FINALIZER}, f, true);
    } else if FINALIZER !in src.finalizers {
      PatchFinalizersKeeps(w, src.finalizers + {FINALIZER}, f, false);
    } else if dst.None? {
      EnsureDestinationState(c, w, src, f);
    } else {
      ContentsKeepSource(c, w, src, dst.value, f);
    }
  }

  lemma ContentsKeepSource(c: Config, w: World, src: Object, d: Object, f: set<Call>)
    ensures SourceKept(w.source, SyncContents(c, w, src, src, d, d, f).world.source, false)
  {
    SyncContentsKeeps(c, w, src, src, d, d, f);
    var source := SyncContents(c, w, src, src, d, d, f).world.source;
    if source != w.source {
      StatusKeepsSource(w.source, source, false);
    }
  }

  // ---------------------------------------------------------------- what a whole Process call does

  ghost predicate Effect(c: Config, v: View, before: Sys, after: SysOutcome, dropped: bool) {
    && SourceKept(before.primary, after.sys.primary, v.source.deleting && v.copy.None?)
    && StateOk(after.sys.state)
    && if v.copy.Some? then
         !Placing(after.log) && CopyKept(before.dests, after.sys.dests, v.copy.value.id, dropped)
       else if Placing(after.log) then
         && !v.source.deleting && FINALIZER in v.source.finalizers
         && CopyPlaced(c, v.source, before.dests, after.sys.dests)
       else
         after.sys.dests == before.dests
  }

  predicate Dropping(k: Key, sys: Sys, v: View, f: set<Call>) {
    WouldDrop(World(sys.primary, sys.dests, {}, Lookup(sys.state, EntryKey(k))), v.source, v.copy, f)
  }

  lemma PrimaryEffect(st: Setup, k: Key, sys: Sys, v: View, f: set<Call>)
    requires StateOk(sys.state) && v.source.id == k.id && WellFormed(v.source)
    requires v.copy.Some? ==> Matches(v.copy.value.labels, SelectorOf(st, k)) && FINALIZER in v.source.finalizers
    ensures Effect(PrimaryConfig(st, k, v.source), v, sys, SyncPrimary(st, k, sys, v, f), Dropping(k, sys, v, f))
  {
    var c := PrimaryConfig(st, k, v.source);
    var w := World(sys.primary, sys.dests, NamespacesOf(sys.namespaces, ""), Lookup(sys.state, EntryKey(k)));
    assert Selector(c, v.source) == SelectorOf(st, k);
    SyncKeepsSource(c, w, v.source, v.copy, f);
    SyncKeepsStateOk(c, w, v.source, v.copy, f);
    if v.copy.Some? {
      SyncCopyKept(c, w, v.source, v.copy.value, f);
    } else {
      SyncPlaces(c, w, v.source, f);
    }
  }

  lemma RulesEffect(c: Config, v: View, sys: Sys, o: SysOutcome)
    requires Framed(sys, o.sys) && o.log == [] && v.copy.Some?
    ensures Effect(c, v, sys, o, false)
  {
  }

  lemma EffectAfterRules(c: Config, v: View, sys: Sys, sys1: Sys, o: SysOutcome, dropped: bool)
    requires Framed(sys, sys1) && Effect(c, v, sys1, o, dropped)
    ensures Effect(c, v, sys, o, dropped)
  {
  }

  lemma EffectBeforeRules(c: Config, v: View, sys: Sys, o: SysOutcome, o': SysOutcome, dropped: bool)
    requires Effect(c, v, sys, o, dropped) && Framed(o.sys, o'.sys) && o'.log == o.log
    ensures Effect(c, v, sys, o', dropped)
  {
  }

  lemma FinishMainEffect(st: Setup, k: Key, sys: Sys, v: View, ch: Chance)
    requires StateOk(sys.state) && v.source.id == k.id && WellFormed(v.source)
    requires SoundRules(st) && Sound(ch.down) && Sound(ch.up)
    requires v.copy.Some? ==> Matches(v.copy.value.labels, SelectorOf(st, k)) && FINALIZER in v.source.finalizers
    ensures Effect(PrimaryConfig(st, k, v.source), v, sys, FinishMain(st, k, sys, v, ch), Dropping(k, sys, v, ch.faults))
  {
    PrimaryEffect(st, k, sys, v, ch.faults);
    var main := SyncPrimary(st, k, sys, v, ch.faults);
    RunRulesFrame(st, k, main.sys, v.source, ch.up, false);
    RunRulesLog(st, k, main.sys, v.source, |st.rules|, ch.up, false);
    EffectBeforeRules(PrimaryConfig(st, k, v.source), v, sys, main,
                      RunRules(st, k, main.sys, v.source, |st.rules|, ch.up, false).(log := main.log), Dropping(k, sys, v, ch.faults));
  }

  /** A call on a source in deletion with a copy never gets past the copy. */
  lemma FinishEffect(st: Setup, k: Key, sys: Sys, v: View, ch: Chance)
    requires StateOk(sys.state) && v.source.id == k.id && WellFormed(v.source)
    requires SoundRules(st) && Sound(ch.down) && Sound(ch.up)
    requires v.copy.Some? ==> Matches(v.copy.value.labels, SelectorOf(st, k)) && FINALIZER in v.source.finalizers
    ensures Effect(PrimaryConfig(st, k, v.source), v, sys, Finish(st, k, sys, v, ch), Dropping(k, sys, v, ch.faults))
  {
    var c := PrimaryConfig(st, k, v.source);
    var down := Teardown(st, k, sys, v, ch);
    if v.source.deleting && v.copy.Some? {
      RunRulesFrame(st, k, sys, v.source, ch.down, true);
      RunRulesLog(st, k, sys, v.source, |st.rules|, ch.down, true);
      RulesEffect(c, v, sys, down);
      FinishMainEffect(st, k, down.sys, v, ch);
      EffectAfterRules(c, v, sys, down.sys, FinishMain(st, k, down.sys, v, ch), false);
    } else {
      FinishMainEffect(st, k, sys, v, ch);
    }
  }

  // ---------------------------------------------------------------- the invariant over one commit

  /** The commit of k would drop the links of a copy that the agent has placed. */
  predicate DropsLinks(m: Machine, k: Key, ch: Chance)
    requires k in m.running
  {
    Dropping(k, SysOf(m, k), m.running[k], ch.faults) && m.running[k].copy.value.id in m.placed
  }

  /** The outcome o is one that a commit of k can have. */
  ghost predicate CanEnd(st: Setup, m: Machine, k: Key, o: SysOutcome, dropped: bool) {
    && k in m.running
    && Effect(PrimaryConfig(st, k, m.running[k].source), m.running[k], SysOf(m, k), o, dropped)
  }

  lemma ChanceSound(st: Setup, m: Machine, k: Key, ch: Chance)
    requires Allowed(st, m, Commit(k, ch))
    ensures Sound(ch.down) && Sound(ch.up)
  {
    forall i: nat
      ensures forall t | t in ch.down(i).attempts :: WellFormed(t.original)
      ensures forall t | t in ch.up(i).attempts :: WellFormed(t.original)
    {
      assert forall t | t in ch.down(i).attempts || t in ch.up(i).attempts :: t in ch.down(i).attempts + ch.up(i).attempts;
    }
  }

  lemma CommitEnds(st: Setup, m: Machine, k: Key, ch: Chance)
    requires ValidSetup(st) && Inv(st, m) && Allowed(st, m, Commit(k, ch))
    ensures CanEnd(st, m, k, Finish(st, k, SysOf(m, k), m.running[k], ch), Dropping(k, SysOf(m, k), m.running[k], ch.faults))
  {
    ChanceSound(st, m, k, ch);
    FinishEffect(st, k, SysOf(m, k), m.running[k], ch);
  }

  lemma OthersUntouched(c: Config, v: View, before: Sys, o: SysOutcome, dropped: bool, id: NsName)
    requires Effect(c, v, before, o, dropped)
    requires id != c.destId && (v.copy.Some? ==> id != v.copy.value.id)
    ensures Lookup(o.sys.dests, id) == Lookup(before.dests, id)
  {
    if v.copy.None? && Placing(o.log) {
      assert o.sys.dests == before.dests[c.destId := o.sys.dests[c.destId]];
    }
  }

  /** A copy that is not the call's own is untouched, and stays placed as it was. */
  lemma CommitOthers(st: Setup, m: Machine, k: Key, o: SysOutcome, dropped: bool, id: NsName)
    requires Inv(st, m) && CanEnd(st, m, k, o, dropped) && id != st.naming(k)
    ensures var m' := AfterFinish(st, m, k, o);
            Lookup(m'.service, id) == Lookup(m.service, id) && Lookup(m'.placed, id) == Lookup(m.placed, id)
  {
    ViewNames(st, m, k);
    OthersUntouched(PrimaryConfig(st, k, m.running[k].source), m.running[k], SysOf(m, k), o, dropped, id);
    PlacedAfterOthers(st, m, k, o, id);
  }

  lemma ViewNames(st: Setup, m: Machine, k: Key)
    requires Inv(st, m) && k in m.running
    ensures m.running[k].copy.Some? ==> m.running[k].copy.value.id == st.naming(k)
  {
    assert ViewOk(st, m, k, m.running[k]);
  }

  lemma PlacedAfterOthers(st: Setup, m: Machine, k: Key, o: SysOutcome, id: NsName)
    requires PlacedOk(st, m) && id != st.naming(k) && Lookup(o.sys.dests, id) == Lookup(m.service, id)
    ensures Lookup(PlacedAfter(st, m, k, o), id) == Lookup(m.placed, id)
  {
    assert id in m.placed ==> id in m.service;
  }

  /** Under the name a source maps to, only that source can have placed a copy. */
  lemma OwnName(st: Setup, m: Machine, k: Key)
    requires ValidSetup(st) && LinksOk(st, m) && ValidKey(st, k) && st.naming(k) in m.placed
    ensures m.placed[st.naming(k)] == k
  {
    var id := st.naming(k);
    var other := m.placed[id];
    assert Matches(m.service[id].labels, SelectorOf(st, other));
    assert st.naming(other) == id;
  }

  predicate OwnOk(st: Setup, m': Machine, k: Key, linked: bool) {
    var id := st.naming(k);
    id in m'.service ==>
      && m'.service[id].id == id
      && (id in m'.placed ==> m'.placed[id] == k)
      && (Matches(m'.service[id].labels, SelectorOf(st, k)) <==> id in m'.placed && linked)
  }

  lemma CommitOwnPlaced(st: Setup, m: Machine, k: Key, o: SysOutcome, dropped: bool)
    requires Inv(st, m) && CanEnd(st, m, k, o, dropped) && Placing(o.log)
    ensures OwnOk(st, AfterFinish(st, m, k, o), k, true) && m.running[k].copy.None?
  {
    var c := PrimaryConfig(st, k, m.running[k].source);
    assert Selector(c, m.running[k].source) == SelectorOf(st, k);
    assert c.destId == st.naming(k);
    assert st.naming(k) in m.service ==> m.service[st.naming(k)].id == st.naming(k);
  }

  lemma OwnBefore(st: Setup, m: Machine, k: Key)
    requires ValidSetup(st) && LinksOk(st, m) && ValidKey(st, k) && st.naming(k) in m.service
    ensures Matches(m.service[st.naming(k)].labels, SelectorOf(st, k)) <==> st.naming(k) in m.placed
  {
    if st.naming(k) in m.placed {
      OwnName(st, m, k);
    }
  }

  lemma CopyKeptLinks(st: Setup, k: Key, dests: map<NsName, Object>, dests': map<NsName, Object>, id: NsName, dropped: bool)
    requires CopyKept(dests, dests', id, dropped) && id in dests'
    ensures id in dests
    ensures Matches(dests'[id].labels, SelectorOf(st, k)) <==> Matches(dests[id].labels, SelectorOf(st, k)) && !dropped
  {
    if dropped {
      assert CLUSTER_LABEL in SelectorOf(st, k);
    } else {
      SameLinksMatch(dests[id].labels, dests'[id].labels, st.agent.hash, ObjectKey(k.cluster, st.paths(k.cluster), k.id));
    }
  }

  lemma CommitOwnKept(st: Setup, m: Machine, k: Key, o: SysOutcome, dropped: bool)
    requires ValidSetup(st) && Inv(st, m) && CanEnd(st, m, k, o, dropped) && m.running[k].copy.Some?
    ensures OwnOk(st, AfterFinish(st, m, k, o), k, !dropped)
  {
    var id := st.naming(k);
    assert m.running[k].copy.value.id == id;
    assert CopyKept(m.service, o.sys.dests, id, dropped);
    if id in o.sys.dests {
      CopyKeptLinks(st, k, m.service, o.sys.dests, id, dropped);
      OwnBefore(st, m, k);
      if id in m.placed {
        OwnName(st, m, k);
      }
    }
  }

  lemma CommitOwnUntouched(st: Setup, m: Machine, k: Key, o: SysOutcome, dropped: bool)
    requires ValidSetup(st) && Inv(st, m) && CanEnd(st, m, k, o, dropped) && m.running[k].copy.None? && !Placing(o.log)
    ensures OwnOk(st, AfterFinish(st, m, k, o), k, true) && st.naming(k) !in m.placed
  {
    if st.naming(k) in m.placed {
      OwnName(st, m, k);
    }
  }

  /** The object under the call's own name, after the call. */
  lemma CommitOwn(st: Setup, m: Machine, k: Key, o: SysOutcome, dropped: bool)
    requires ValidSetup(st) && Inv(st, m) && CanEnd(st, m, k, o, dropped)
    ensures OwnOk(st, AfterFinish(st, m, k, o), k, !(dropped && m.running[k].copy.Some?))
  {
    if m.running[k].copy.Some? {
      CommitOwnKept(st, m, k, o, dropped);
    } else if Placing(o.log) {
      CommitOwnPlaced(st, m, k, o, dropped);
    } else {
      CommitOwnUntouched(st, m, k, o, dropped);
    }
  }

  /** No object comes to match another source. */
  lemma CommitForeign(st: Setup, m: Machine, k: Key, o: SysOutcome, dropped: bool, other: Key)
    requires ValidSetup(st) && Inv(st, m) && CanEnd(st, m, k, o, dropped)
    requires st.naming(k) in o.sys.dests && ValidKey(st, other)
    requires Matches(o.sys.dests[st.naming(k)].labels, SelectorOf(st, other))
    ensures other == k
  {
    var id := st.naming(k);
    var v := m.running[k];
    var key, key' := ObjectKey(k.cluster, st.paths(k.cluster), k.id), ObjectKey(other.cluster, st.paths(other.cluster), other.id);
    assert CLUSTER_LABEL in SelectorOf(st, other);
    if Placing(o.log) {
      SelectorUnique(st.agent.hash, o.sys.dests[id].labels, key, key');
    } else {
      if v.copy.Some? {
        SameLinksMatch(m.service[id].labels, o.sys.dests[id].labels, st.agent.hash, key');
      }
      assert st.naming(other) == id;
    }
  }

  lemma CommitKeys(st: Setup, m: Machine, k: Key, o: SysOutcome, dropped: bool)
    requires ValidSetup(st) && Inv(st, m) && CanEnd(st, m, k, o, dropped)
    ensures KeysOk(st, AfterFinish(st, m, k, o))
  {
    CommitStores(st, m, k, o, dropped);
  }

  lemma CommitStores(st: Setup, m: Machine, k: Key, o: SysOutcome, dropped: bool)
    requires ValidSetup(st) && Inv(st, m) && CanEnd(st, m, k, o, dropped)
    ensures var m' := AfterFinish(st, m, k, o);
            forall id | id in m'.service :: m'.service[id].id == id
  {
    var m' := AfterFinish(st, m, k, o);
    forall id | id in m'.service
      ensures m'.service[id].id == id
    {
      if id == st.naming(k) {
        CommitOwn(st, m, k, o, dropped);
      } else {
        CommitOthers(st, m, k, o, dropped, id);
      }
    }
  }

  lemma CommitMatchesPlaced(st: Setup, m: Machine, k: Key, o: SysOutcome, dropped: bool, id: NsName, other: Key)
    requires ValidSetup(st) && Inv(st, m) && CanEnd(st, m, k, o, dropped)
    requires id in o.sys.dests && ValidKey(st, other) && Matches(o.sys.dests[id].labels, SelectorOf(st, other))
    ensures var m' := AfterFinish(st, m, k, o);
            id == st.naming(other) && id in m'.placed && m'.placed[id] == other
  {
    if id == st.naming(k) {
      CommitForeign(st, m, k, o, dropped, other);
      CommitOwn(st, m, k, o, dropped);
    } else {
      CommitOthers(st, m, k, o, dropped, id);
      assert Lookup(m.service, id) == Some(o.sys.dests[id]);
    }
  }

  /** Copies placed for other sources stay as they are. */
  lemma CommitOtherPlaced(st: Setup, m: Machine, k: Key, o: SysOutcome, dropped: bool, id: NsName)
    requires ValidSetup(st) && Inv(st, m) && CanEnd(st, m, k, o, dropped)
    requires id in AfterFinish(st, m, k, o).placed && id != st.naming(k)
    ensures var m' := AfterFinish(st, m, k, o);
            && id in m.placed && m.placed[id] == m'.placed[id] && m.placed[id] != k
            && ValidKey(st, m'.placed[id])
            && id in m'.service && Matches(m'.service[id].labels, SelectorOf(st, m'.placed[id]))
  {
    CommitOthers(st, m, k, o, dropped, id);
    assert id in m.placed;
    assert st.naming(m.placed[id]) == id;
  }

  lemma CommitMatches(st: Setup, m: Machine, k: Key, o: SysOutcome, dropped: bool)
    requires ValidSetup(st) && Inv(st, m) && CanEnd(st, m, k, o, dropped)
    ensures MatchesOk(st, AfterFinish(st, m, k, o))
  {
    var m' := AfterFinish(st, m, k, o);
    forall id, other | id in m'.service && ValidKey(st, other) && Matches(m'.service[id].labels, SelectorOf(st, other))
      ensures id == st.naming(other) && id in m'.placed && m'.placed[id] == other
    {
      CommitMatchesPlaced(st, m, k, o, dropped, id, other);
    }
  }

  lemma CommitOwnFound(st: Setup, m: Machine, k: Key, o: SysOutcome, dropped: bool)
    requires ValidSetup(st) && Inv(st, m) && CanEnd(st, m, k, o, dropped)
    requires !(dropped && m.running[k].copy.Some? && st.naming(k) in m.placed)
    requires st.naming(k) in AfterFinish(st, m, k, o).placed
    ensures var m' := AfterFinish(st, m, k, o);
            var id := st.naming(k);
            m'.placed[id] == k && id in m'.service && Matches(m'.service[id].labels, SelectorOf(st, k))
  {
    CommitOwn(st, m, k, o, dropped);
    OwnStaysPlaced(st, m, k, o, dropped);
  }

  /** Unless links are dropped, copies are found by exactly the source they were placed for. */
  lemma CommitLinks(st: Setup, m: Machine, k: Key, o: SysOutcome, dropped: bool)
    requires ValidSetup(st) && Inv(st, m) && CanEnd(st, m, k, o, dropped)
    requires !(dropped && m.running[k].copy.Some? && st.naming(k) in m.placed)
    ensures LinksOk(st, AfterFinish(st, m, k, o))
  {
    var m' := AfterFinish(st, m, k, o);
    CommitMatches(st, m, k, o, dropped);
    forall id | id in m'.placed
      ensures ValidKey(st, m'.placed[id]) && id in m'.service && Matches(m'.service[id].labels, SelectorOf(st, m'.placed[id]))
    {
      if id == st.naming(k) {
        CommitOwnFound(st, m, k, o, dropped);
      } else {
        CommitOtherPlaced(st, m, k, o, dropped, id);
      }
    }
  }

  lemma OwnStaysPlaced(st: Setup, m: Machine, k: Key, o: SysOutcome, dropped: bool)
    requires ValidSetup(st) && Inv(st, m) && CanEnd(st, m, k, o, dropped)
    requires st.naming(k) in AfterFinish(st, m, k, o).placed
    ensures st.naming(k) in o.sys.dests
    ensures m.running[k].copy.Some? ==> st.naming(k) in m.placed
    ensures m.running[k].copy.None? ==> Placing(o.log)
  {
    if m.running[k].copy.None? && !Placing(o.log) {
      CommitOwnUntouched(st, m, k, o, dropped);
    }
  }

  lemma DroppedLinks(st: Setup, m: Machine, k: Key, o: SysOutcome)
    requires ValidSetup(st) && Inv(st, m) && CanEnd(st, m, k, o, true)
    requires m.running[k].copy.Some? && st.naming(k) in m.placed
    ensures !LinksOk(st, AfterFinish(st, m, k, o))
  {
    var m' := AfterFinish(st, m, k, o);
    var id := st.naming(k);
    CommitOwnKept(st, m, k, o, true);
    assert id in m'.service && id in m'.placed && m'.placed[id] == k;
    assert !Matches(m'.service[id].labels, SelectorOf(st, k));
  }

  /** While a copy is left or placed, the source stays held back. */
  lemma OwnProtected(st: Setup, m: Machine, k: Key, o: SysOutcome, dropped: bool)
    requires Inv(st, m) && CanEnd(st, m, k, o, dropped)
    requires m.running[k].copy.Some? || Placing(o.log)
    ensures Held(o.sys.primary)
  {
    assert FINALIZER in m.running[k].source.finalizers;
    assert Protected(m, k);
    assert Held(SysOf(m, k).primary);
  }

  lemma CommitProtectsOwn(st: Setup, m: Machine, k: Key, o: SysOutcome, dropped: bool)
    requires ValidSetup(st) && Inv(st, m) && CanEnd(st, m, k, o, dropped)
    requires st.naming(k) in AfterFinish(st, m, k, o).placed
    ensures AfterFinish(st, m, k, o).placed[st.naming(k)] == k && Held(o.sys.primary)
  {
    OwnStaysPlaced(st, m, k, o, dropped);
    CommitOwn(st, m, k, o, dropped);
    OwnProtected(st, m, k, o, dropped);
  }

  lemma CommitProtectsOther(st: Setup, m: Machine, k: Key, o: SysOutcome, dropped: bool, id: NsName)
    requires ValidSetup(st) && Inv(st, m) && CanEnd(st, m, k, o, dropped)
    requires id in AfterFinish(st, m, k, o).placed && id != st.naming(k)
    ensures var owner := AfterFinish(st, m, k, o).placed[id];
            owner != k && Protected(m, owner)
  {
    CommitOtherPlaced(st, m, k, o, dropped, id);
  }

  lemma SourcesAfter(st: Setup, m: Machine, k: Key, o: SysOutcome, owner: Key)
    requires if owner == k then Held(o.sys.primary) else Protected(m, owner)
    ensures Protected(AfterFinish(st, m, k, o), owner)
  {
  }

  lemma CommitProtectsOne(st: Setup, m: Machine, k: Key, o: SysOutcome, dropped: bool, id: NsName)
    requires ValidSetup(st) && Inv(st, m) && CanEnd(st, m, k, o, dropped)
    requires id in AfterFinish(st, m, k, o).placed
    ensures Protected(AfterFinish(st, m, k, o), AfterFinish(st, m, k, o).placed[id])
  {
    if id == st.naming(k) {
      CommitProtectsOwn(st, m, k, o, dropped);
    } else {
      CommitProtectsOther(st, m, k, o, dropped, id);
    }
    SourcesAfter(st, m, k, o, AfterFinish(st, m, k, o).placed[id]);
  }

  lemma CommitProtects(st: Setup, m: Machine, k: Key, o: SysOutcome, dropped: bool)
    requires ValidSetup(st) && Inv(st, m) && CanEnd(st, m, k, o, dropped)
    ensures NoOrphans(AfterFinish(st, m, k, o))
  {
    forall id | id in AfterFinish(st, m, k, o).placed
      ensures Protected(AfterFinish(st, m, k, o), AfterFinish(st, m, k, o).placed[id])
    {
      CommitProtectsOne(st, m, k, o, dropped, id);
    }
  }

  lemma CommitViews(st: Setup, m: Machine, k: Key, o: SysOutcome, dropped: bool, other: Key)
    requires ValidSetup(st) && Inv(st, m) && CanEnd(st, m, k, o, dropped)
    requires other in m.running && other != k
    ensures ViewOk(st, AfterFinish(st, m, k, o), other, m.running[other])
  {
    var m' := AfterFinish(st, m, k, o);
    assert Lookup(m'.kcp, other) == Lookup(m.kcp, other);
    if m.running[other].copy.None? {
      forall id | id in m'.placed
        ensures m'.placed[id] != other
      {
        if id == st.naming(k) {
          CommitOwn(st, m, k, o, dropped);
          OwnStaysPlaced(st, m, k, o, dropped);
        } else {
          CommitOtherPlaced(st, m, k, o, dropped, id);
        }
      }
    }
  }

  lemma CommitState(st: Setup, m: Machine, k: Key, o: SysOutcome, dropped: bool)
    requires Inv(st, m) && CanEnd(st, m, k, o, dropped)
    ensures forall x | x in AfterFinish(st, m, k, o).state :: StateOk(AfterFinish(st, m, k, o).state[x])
  {
  }

  lemma CommitKeepsRest(st: Setup, m: Machine, k: Key, o: SysOutcome, dropped: bool)
    requires ValidSetup(st) && Inv(st, m) && CanEnd(st, m, k, o, dropped)
    ensures var m' := AfterFinish(st, m, k, o);
            && NoOrphans(m')
            && (Inv(st, m') <==> LinksOk(st, m'))
  {
    var m' := AfterFinish(st, m, k, o);
    CommitKeys(st, m, k, o, dropped);
    CommitState(st, m, k, o, dropped);
    CommitProtects(st, m, k, o, dropped);
    forall other | other in m'.running
      ensures ViewOk(st, m', other, m'.running[other])
    {
      CommitViews(st, m, k, o, dropped, other);
    }
  }

  lemma EndKeepsInvIff(st: Setup, m: Machine, k: Key, o: SysOutcome, dropped: bool)
    requires ValidSetup(st) && Inv(st, m) && CanEnd(st, m, k, o, dropped)
    ensures NoOrphans(AfterFinish(st, m, k, o))
    ensures Inv(st, AfterFinish(st, m, k, o)) <==> !(dropped && m.running[k].copy.Some? && st.naming(k) in m.placed)
  {
    CommitKeepsRest(st, m, k, o, dropped);
    if dropped && m.running[k].copy.Some? && st.naming(k) in m.placed {
      DroppedLinks(st, m, k, o);
    } else {
      CommitLinks(st, m, k, o, dropped);
    }
  }

  /**
   The writing half of a Process call keeps the invariant, except exactly when its patch drops the
   links of the copy because the source has lost its last syncable label.
   */
  lemma CommitKeepsInvIff(st: Setup, m: Machine, k: Key, ch: Chance)
    requires ValidSetup(st) && Inv(st, m) && Allowed(st, m, Commit(k, ch))
    ensures Inv(st, AfterCommit(st, m, k, ch)) <==> !DropsLinks(m, k, ch)
    ensures NoOrphans(AfterCommit(st, m, k, ch))
  {
    var dropped := Dropping(k, SysOf(m, k), m.running[k], ch.faults);
    CommitEnds(st, m, k, ch);
    EndKeepsInvIff(st, m, k, Finish(st, k, SysOf(m, k), m.running[k], ch), dropped);
    assert m.running[k].copy.Some? ==> m.running[k].copy.value.id == st.naming(k) by {
      assert ViewOk(st, m, k, m.running[k]);
    }
  }

  // ---------------------------------------------------------------- all other steps

  /** What is protected stays protected, and what is being deleted stays so. */
  ghost predicate SourcesHeld(m: Machine, m': Machine) {
    forall k | Protected(m, k) :: Protected(m', k) && (m.kcp[k].deleting ==> m'.kcp[k].deleting)
  }

  lemma HeldKeepsViews(st: Setup, m: Machine, m': Machine)
    requires NoOrphans(m) && (forall k | k in m.running :: ViewOk(st, m, k, m.running[k]))
    requires m' == m.(kcp := m'.kcp) && SourcesHeld(m, m')
    ensures NoOrphans(m') && forall k | k in m'.running :: ViewOk(st, m', k, m'.running[k])
  {
    forall k | k in m'.running
      ensures ViewOk(st, m', k, m'.running[k])
    {
      assert ViewOk(st, m, k, m.running[k]);
    }
  }

  lemma HeldKeepsInv(st: Setup, m: Machine, m': Machine)
    requires Inv(st, m) && m' == m.(kcp := m'.kcp) && SourcesHeld(m, m') && KeysOk(st, m')
    ensures Inv(st, m')
  {
    HeldKeepsViews(st, m, m');
    assert MatchesOk(st, m') && PlacedOk(st, m');
  }

  lemma EnvSourceKeeps(st: Setup, m: Machine, k: Key, source: Option<Object>)
    requires Inv(st, m) && Allowed(st, m, EnvSource(k, source))
    ensures Inv(st, After(st, m, EnvSource(k, source)))
  {
    var m' := After(st, m, EnvSource(k, source));
    assert SourcesHeld(m, m') && KeysOk(st, m');
    HeldKeepsInv(st, m, m');
  }

  /** What the invariant says about running calls only depends on sources and placed copies. */
  lemma ViewsKept(st: Setup, m: Machine, m': Machine)
    requires Inv(st, m)
    requires m'.kcp == m.kcp && m'.running.Keys <= m.running.Keys && m'.placed.Keys <= m.placed.Keys
    requires forall k | k in m'.running :: m'.running[k] == m.running[k]
    requires forall id | id in m'.placed :: m'.placed[id] == m.placed[id]
    ensures NoOrphans(m')
    ensures forall k | k in m'.running :: ViewOk(st, m', k, m'.running[k])
  {
    forall k | k in m'.running
      ensures ViewOk(st, m', k, m'.running[k])
    {
      assert ViewOk(st, m, k, m.running[k]);
      if m'.running[k].copy.None? {
        assert forall id | id in m'.placed :: m.placed[id] != k;
      }
    }
  }

  lemma EnvServiceMatches(st: Setup, m: Machine, id: NsName, copy: Option<Object>)
    requires MatchesOk(st, m) && Allowed(st, m, EnvService(id, copy))
    ensures MatchesOk(st, After(st, m, EnvService(id, copy)))
  {
    var m' := After(st, m, EnvService(id, copy));
    forall x, k | x in m'.service && ValidKey(st, k) && Matches(m'.service[x].labels, SelectorOf(st, k))
      ensures x == st.naming(k) && x in m'.placed && m'.placed[x] == k
    {
      assert x in m.service && Matches(m.service[x].labels, SelectorOf(st, k));
    }
  }

  lemma EnvServicePlaced(st: Setup, m: Machine, id: NsName, copy: Option<Object>)
    requires PlacedOk(st, m) && Allowed(st, m, EnvService(id, copy))
    ensures PlacedOk(st, After(st, m, EnvService(id, copy)))
  {
    var m' := After(st, m, EnvService(id, copy));
    forall x | x in m'.placed
      ensures ValidKey(st, m'.placed[x]) && x in m'.service && Matches(m'.service[x].labels, SelectorOf(st, m'.placed[x]))
    {
      assert Matches(m.service[x].labels, SelectorOf(st, m.placed[x]));
    }
  }

  lemma EnvServiceKeeps(st: Setup, m: Machine, id: NsName, copy: Option<Object>)
    requires Inv(st, m) && Allowed(st, m, EnvService(id, copy))
    ensures Inv(st, After(st, m, EnvService(id, copy)))
  {
    var m' := After(st, m, EnvService(id, copy));
    EnvServiceMatches(st, m, id, copy);
    EnvServicePlaced(st, m, id, copy);
    ViewsKept(st, m, m');
  }

  /** A call that finds a copy finds the one placed for its source; if it finds none, there is none. */
  lemma BeginView(st: Setup, m: Machine, k: Key, v: View)
    requires Inv(st, m) && k in m.kcp && ValidKey(st, k)
    requires var found := Found(m.service, SelectorOf(st, k));
             v == View(m.kcp[k], if found == {} then None else Some(m.service[Pick(found)]))
    ensures ViewOk(st, m, k, v)
  {
    var found := Found(m.service, SelectorOf(st, k));
    if found == {} {
      forall id | id in m.placed
        ensures m.placed[id] != k
      {
        assert id !in found;
      }
    } else {
      var id := Pick(found);
      assert Matches(m.service[id].labels, SelectorOf(st, k));
      assert Protected(m, m.placed[id]);
    }
  }

  lemma RunningChanged(st: Setup, m: Machine, m': Machine)
    requires Inv(st, m) && m' == m.(running := m'.running)
    requires forall k | k in m'.running ::
               ValidKey(st, k) && m'.running[k].source.id == k.id && WellFormed(m'.running[k].source) && ViewOk(st, m, k, m'.running[k])
    ensures Inv(st, m')
  {
    forall k | k in m'.running
      ensures ViewOk(st, m', k, m'.running[k])
    {
      assert ViewOk(st, m, k, m'.running[k]);
    }
    assert MatchesOk(st, m') && PlacedOk(st, m') && NoOrphans(m');
  }

  lemma BeginKeeps(st: Setup, m: Machine, k: Key)
    requires Inv(st, m) && Allowed(st, m, Begin(k))
    ensures Inv(st, After(st, m, Begin(k)))
  {
    var m' := After(st, m, Begin(k));
    BeginView(st, m, k, m'.running[k]);
    RunningChanged(st, m, m');
  }

  lemma ElsewhereKeeps(st: Setup, m: Machine, m': Machine)
    requires Inv(st, m)
    requires m' == m.(places := m'.places, namespaces := m'.namespaces, running := m'.running)
    requires m'.running.Keys <= m.running.Keys && forall k | k in m'.running :: m'.running[k] == m.running[k]
    ensures Inv(st, m')
  {
    ViewsKept(st, m, m');
    assert LinksOk(st, m');
  }

  /** Every step keeps the invariant, unless it is a commit that drops the links of a placed copy. */
  lemma StepKeepsInv(st: Setup, m: Machine, step: Step)
    requires ValidSetup(st) && Inv(st, m) && Allowed(st, m, step)
    requires step.Commit? ==> !DropsLinks(m, step.k, step.chance)
    ensures Inv(st, After(st, m, step))
  {
    match step
    case EnvSource(k, source) => EnvSourceKeeps(st, m, k, source);
    case EnvService(id, copy) => EnvServiceKeeps(st, m, id, copy);
    case Begin(k) => BeginKeeps(st, m, k);
    case Commit(k, ch) => CommitKeepsInvIff(st, m, k, ch);
    case Abort(k) => ElsewhereKeeps(st, m, After(st, m, step));
    case EnvPlace(place, objects) => ElsewhereKeeps(st, m, After(st, m, step));
    case EnvNamespaces(ns) => ElsewhereKeeps(st, m, After(st, m, step));
  }

  // ---------------------------------------------------------------- whole runs

  /** A run: the states passed through, starting empty, and the step taken at each. */
  ghost predicate IsRun(st: Setup, trace: seq<Machine>, steps: seq<Step>) {
    && |trace| == |steps| + 1
    && trace[0] == EMPTY
    && forall i | 0 <= i < |steps| :: Allowed(st, trace[i], steps[i]) && trace[i + 1] == After(st, trace[i], steps[i])
  }

  /** The machine without the record of copies that have lost their links. */
  function Sighted(m: Machine, lost: set<NsName>): Machine {
    m.(placed := m.placed - lost)
  }

  /** After a commit that drops links, all is well but for the record of that one copy. */
  lemma DroppedInv(st: Setup, m: Machine, k: Key, o: SysOutcome)
    requires ValidSetup(st) && Inv(st, m) && CanEnd(st, m, k, o, true)
    requires m.running[k].copy.Some? && st.naming(k) in m.placed
    ensures Inv(st, Sighted(AfterFinish(st, m, k, o), {st.naming(k)}))
  {
    var m' := AfterFinish(st, m, k, o);
    var m1 := Sighted(m', {st.naming(k)});
    CommitKeepsRest(st, m, k, o, true);
    CommitKeys(st, m, k, o, true);
    CommitState(st, m, k, o, true);
    DroppedMatches(st, m, k, o);
    DroppedPlaced(st, m, k, o);
    forall other | other in m1.running
      ensures ViewOk(st, m1, other, m1.running[other])
    {
      CommitViews(st, m, k, o, true, other);
    }
  }

  lemma DroppedUnmatched(st: Setup, m: Machine, k: Key, o: SysOutcome, other: Key)
    requires ValidSetup(st) && Inv(st, m) && CanEnd(st, m, k, o, true)
    requires m.running[k].copy.Some? && st.naming(k) in o.sys.dests
    ensures !Matches(o.sys.dests[st.naming(k)].labels, SelectorOf(st, other))
  {
    ViewNames(st, m, k);
    CopyKeptLinks(st, other, m.service, o.sys.dests, st.naming(k), true);
  }

  lemma UnmatchedOut(st: Setup, m: Machine, id: NsName)
    requires MatchesOk(st, m)
    requires id in m.service ==> forall k {:trigger SelectorOf(st, k)} | ValidKey(st, k) :: !Matches(m.service[id].labels, SelectorOf(st, k))
    ensures MatchesOk(st, Sighted(m, {id}))
  {
  }

  lemma DroppedMatches(st: Setup, m: Machine, k: Key, o: SysOutcome)
    requires ValidSetup(st) && Inv(st, m) && CanEnd(st, m, k, o, true)
    requires m.running[k].copy.Some?
    ensures MatchesOk(st, Sighted(AfterFinish(st, m, k, o), {st.naming(k)}))
  {
    CommitMatches(st, m, k, o, true);
    if st.naming(k) in o.sys.dests {
      forall other {:trigger SelectorOf(st, other)} | ValidKey(st, other)
        ensures !Matches(o.sys.dests[st.naming(k)].labels, SelectorOf(st, other))
      {
        DroppedUnmatched(st, m, k, o, other);
      }
    }
    UnmatchedOut(st, AfterFinish(st, m, k, o), st.naming(k));
  }

  lemma DroppedPlaced(st: Setup, m: Machine, k: Key, o: SysOutcome)
    requires ValidSetup(st) && Inv(st, m) && CanEnd(st, m, k, o, true)
    ensures PlacedOk(st, Sighted(AfterFinish(st, m, k, o), {st.naming(k)}))
  {
    var m1 := Sighted(AfterFinish(st, m, k, o), {st.naming(k)});
    forall id | id in m1.placed
      ensures ValidKey(st, m1.placed[id]) && id in m1.service && Matches(m1.service[id].labels, SelectorOf(st, m1.placed[id]))
    {
      CommitOtherPlaced(st, m, k, o, true, id);
    }
  }

  /** The step is a commit of k that drops the links of k's copy. */
  ghost predicate DropsAt(m: Machine, step: Step, k: Key) {
    step.Commit? && step.k == k && k in m.running && DropsLinks(m, k, step.chance)
  }

  /** The step is a commit of k that creates or adopts k's copy. */
  ghost predicate PlacesAt(st: Setup, m: Machine, step: Step, k: Key) {
    step.Commit? && step.k == k && k in m.running && Placing(Finish(st, k, SysOf(m, k), m.running[k], step.chance).log)
  }

  /** Which copies have lost their links: those whose source's commit drops them, until placed again. */
  function LostEnd(st: Setup, m: Machine, lost: set<NsName>, k: Key, o: SysOutcome, dropped: bool): set<NsName> {
    var id := st.naming(k);
    if Placing(o.log) then lost - {id} else if dropped && id in m.placed then lost + {id} else lost
  }

  ghost function LostAfter(st: Setup, m: Machine, lost: set<NsName>, step: Step): set<NsName> {
    if !step.Commit? || step.k !in m.running then lost
    else
      var k, v := step.k, m.running[step.k];
      LostEnd(st, m, lost, k, Finish(st, k, SysOf(m, k), v, step.chance), Dropping(k, SysOf(m, k), v, step.chance.faults))
  }

  ghost function Lost(st: Setup, trace: seq<Machine>, steps: seq<Step>, i: nat): set<NsName>
    requires i <= |steps| <= |trace|
  {
    if i == 0 then {} else LostAfter(st, trace[i - 1], Lost(st, trace, steps, i - 1), steps[i - 1])
  }

  lemma SightedRecord(placed: map<NsName, Key>, there: set<NsName>, lost: set<NsName>, id: NsName, k: Key)
    ensures var rest, seen := map x | x in placed && x in there :: placed[x], map x | x in placed - lost && x in there :: (placed - lost)[x];
            && seen == rest - lost
            && seen + map[id := k] == (rest + map[id := k]) - (lost - {id})
  {
  }

  /** What a call does is the same whatever is on record, and so is the record of other copies. */
  /** The copies that are still without links after a call for this name. */
  function StillLost(lost: set<NsName>, id: NsName, placing: bool): set<NsName> {
    if placing then lost - {id} else lost
  }

  lemma SightedPlaced(st: Setup, m: Machine, lost: set<NsName>, k: Key, o: SysOutcome)
    ensures PlacedAfter(st, Sighted(m, lost), k, o) == PlacedAfter(st, m, k, o) - StillLost(lost, st.naming(k), Placing(o.log))
  {
    SightedRecord(m.placed, o.sys.dests.Keys, lost, st.naming(k), k);
    var rest := map x | x in m.placed && x in o.sys.dests :: m.placed[x];
    assert rest == map x | x in m.placed && x in o.sys.dests.Keys :: m.placed[x];
    var seen := map x | x in m.placed - lost && x in o.sys.dests :: (m.placed - lost)[x];
    assert seen == map x | x in m.placed - lost && x in o.sys.dests.Keys :: (m.placed - lost)[x];
  }

  lemma SightedFinish(st: Setup, m: Machine, lost: set<NsName>, k: Key, o: SysOutcome)
    ensures var lost' := StillLost(lost, st.naming(k), Placing(o.log));
            AfterFinish(st, Sighted(m, lost), k, o) == Sighted(AfterFinish(st, m, k, o), lost')
  {
    SightedPlaced(st, m, lost, k, o);
  }

  lemma SightedAllowed(st: Setup, m: Machine, lost: set<NsName>, step: Step)
    requires Allowed(st, m, step)
    ensures Allowed(st, Sighted(m, lost), step)
    ensures !step.Commit? ==> After(st, Sighted(m, lost), step) == Sighted(After(st, m, step), lost)
  {
    if step.EnvService? && step.copy.None? {
      assert m.placed - lost - {step.id} == m.placed - {step.id} - lost;
    }
  }

  lemma SightedTwice(m: Machine, lost: set<NsName>, id: NsName)
    ensures Sighted(Sighted(m, lost), {id}) == Sighted(m, lost + {id})
    ensures id in lost ==> lost + {id} == lost
  {
    assert m.placed - lost - {id} == m.placed - (lost + {id});
  }

  lemma DropKeepsSighted(st: Setup, m: Machine, lost: set<NsName>, k: Key, o: SysOutcome)
    requires ValidSetup(st) && Inv(st, Sighted(m, lost)) && CanEnd(st, Sighted(m, lost), k, o, true)
    requires m.running[k].copy.Some? && st.naming(k) in m.placed - lost
    ensures Inv(st, Sighted(AfterFinish(st, m, k, o), lost + {st.naming(k)}))
  {
    DroppedInv(st, Sighted(m, lost), k, o);
    NotPlacing(st, Sighted(m, lost), k, o, true);
    SightedFinish(st, m, lost, k, o);
    SightedTwice(AfterFinish(st, m, k, o), lost, st.naming(k));
  }

  lemma NotPlacing(st: Setup, m: Machine, k: Key, o: SysOutcome, dropped: bool)
    requires CanEnd(st, m, k, o, dropped) && m.running[k].copy.Some?
    ensures !Placing(o.log)
  {
  }

  lemma OtherwiseKeepsSighted(st: Setup, m: Machine, lost: set<NsName>, k: Key, o: SysOutcome, dropped: bool)
    requires ValidSetup(st) && Inv(st, Sighted(m, lost)) && CanEnd(st, Sighted(m, lost), k, o, dropped)
    requires !(dropped && m.running[k].copy.Some? && st.naming(k) in m.placed - lost)
    ensures Inv(st, Sighted(AfterFinish(st, m, k, o), if Placing(o.log) then lost - {st.naming(k)} else lost))
  {
    EndKeepsInvIff(st, Sighted(m, lost), k, o, dropped);
    SightedFinish(st, m, lost, k, o);
  }

  lemma EndKeepsSighted(st: Setup, m: Machine, lost: set<NsName>, k: Key, o: SysOutcome, dropped: bool)
    requires ValidSetup(st) && Inv(st, Sighted(m, lost)) && CanEnd(st, Sighted(m, lost), k, o, dropped)
    requires dropped ==> m.running[k].copy.Some?
    ensures Inv(st, Sighted(AfterFinish(st, m, k, o), LostEnd(st, m, lost, k, o, dropped)))
  {
    if dropped && st.naming(k) in m.placed - lost {
      NotPlacing(st, Sighted(m, lost), k, o, dropped);
      DropKeepsSighted(st, m, lost, k, o);
    } else {
      OtherwiseKeepsSighted(st, m, lost, k, o, dropped);
      SightedTwice(m, lost, st.naming(k));
    }
  }

  lemma CommitKeepsSighted(st: Setup, m: Machine, lost: set<NsName>, k: Key, ch: Chance)
    requires ValidSetup(st) && Inv(st, Sighted(m, lost)) && Allowed(st, m, Commit(k, ch))
    ensures Inv(st, Sighted(AfterCommit(st, m, k, ch), LostAfter(st, m, lost, Commit(k, ch))))
  {
    SightedAllowed(st, m, lost, Commit(k, ch));
    CommitEnds(st, Sighted(m, lost), k, ch);
    ViewNames(st, Sighted(m, lost), k);
    EndKeepsSighted(st, m, lost, k, Finish(st, k, SysOf(m, k), m.running[k], ch), Dropping(k, SysOf(m, k), m.running[k], ch.faults));
  }

  lemma StepKeepsSighted(st: Setup, m: Machine, lost: set<NsName>, step: Step)
    requires ValidSetup(st) && Inv(st, Sighted(m, lost)) && Allowed(st, m, step)
    ensures Inv(st, Sighted(After(st, m, step), LostAfter(st, m, lost, step)))
  {
    if step.Commit? {
      CommitKeepsSighted(st, m, lost, step.k, step.chance);
    } else {
      SightedAllowed(st, m, lost, step);
      StepKeepsInv(st, Sighted(m, lost), step);
    }
  }

  /** In every run, the invariant holds of all copies that have not lost their links. */
  lemma {:induction false} InvInRuns(st: Setup, trace: seq<Machine>, steps: seq<Step>, i: nat)
    requires ValidSetup(st) && IsRun(st, trace, steps) && i < |trace|
    ensures Inv(st, Sighted(trace[i], Lost(st, trace, steps, i)))
    decreases i
  {
    if i > 0 {
      InvInRuns(st, trace, steps, i - 1);
      StepKeepsSighted(st, trace[i - 1], Lost(st, trace, steps, i - 1), steps[i - 1]);
    }
  }

  /** A commit of k dropped the links of k's copy, and no commit of k has placed it again since. */
  ghost predicate DroppedSince(st: Setup, trace: seq<Machine>, steps: seq<Step>, i: nat, k: Key)
    requires i <= |steps| <= |trace|
    decreases i
  {
    i > 0 && (
      || DropsAt(trace[i - 1], steps[i - 1], k)
      || (!PlacesAt(st, trace[i - 1], steps[i - 1], k) && DroppedSince(st, trace, steps, i - 1, k)))
  }

  lemma {:induction false} NeverDropped(st: Setup, trace: seq<Machine>, steps: seq<Step>, i: nat, k: Key)
    requires i <= |steps| <= |trace| && forall j | 0 <= j < i :: !DropsAt(trace[j], steps[j], k)
    ensures !DroppedSince(st, trace, steps, i, k)
    decreases i
  {
    if i > 0 {
      NeverDropped(st, trace, steps, i - 1, k);
    }
  }

  /** Copies are only on record under the names of the sources they were placed for. */
  ghost predicate RecordOk(st: Setup, m: Machine) {
    forall id | id in m.placed :: ValidKey(st, m.placed[id]) && st.naming(m.placed[id]) == id
  }

  lemma {:induction false} RecordInRuns(st: Setup, trace: seq<Machine>, steps: seq<Step>, i: nat)
    requires ValidSetup(st) && IsRun(st, trace, steps) && i < |trace|
    ensures RecordOk(st, trace[i])
    decreases i
  {
    if i > 0 {
      RecordInRuns(st, trace, steps, i - 1);
      InvInRuns(st, trace, steps, i - 1);
      RecordKept(st, trace[i - 1], Lost(st, trace, steps, i - 1), steps[i - 1]);
    }
  }

  lemma RecordKept(st: Setup, m: Machine, lost: set<NsName>, step: Step)
    requires RecordOk(st, m) && Inv(st, Sighted(m, lost)) && Allowed(st, m, step)
    ensures RecordOk(st, After(st, m, step))
  {
    if step.Commit? {
      assert ValidKey(st, step.k);
      RecordAfter(st, m, step.k, Finish(st, step.k, SysOf(m, step.k), m.running[step.k], step.chance));
    }
  }

  lemma RecordAfter(st: Setup, m: Machine, k: Key, o: SysOutcome)
    requires RecordOk(st, m) && ValidKey(st, k)
    ensures RecordOk(st, AfterFinish(st, m, k, o))
  {
  }

  /** A copy is without links after a step because the step dropped them, or because it was before and was not placed. */
  lemma LostBy(st: Setup, m: Machine, lost: set<NsName>, step: Step, k: Key)
    requires ValidSetup(st) && ValidKey(st, k) && Inv(st, Sighted(m, lost)) && Allowed(st, m, step)
    requires st.naming(k) in LostAfter(st, m, lost, step)
    ensures DropsAt(m, step, k) || (st.naming(k) in lost && !PlacesAt(st, m, step, k))
  {
    if step.Commit? {
      ViewNames(st, Sighted(m, lost), step.k);
      var o := Finish(st, step.k, SysOf(m, step.k), m.running[step.k], step.chance);
      LostByEnd(st, m, lost, step.k, o, Dropping(step.k, SysOf(m, step.k), m.running[step.k], step.chance.faults), k);
    }
  }

  lemma LostByEnd(st: Setup, m: Machine, lost: set<NsName>, x: Key, o: SysOutcome, dropped: bool, k: Key)
    requires ValidSetup(st) && ValidKey(st, k) && ValidKey(st, x)
    requires st.naming(k) in LostEnd(st, m, lost, x, o, dropped)
    ensures if x != k then st.naming(k) in lost
            else !Placing(o.log) && (st.naming(k) in lost || (dropped && st.naming(k) in m.placed))
  {
    assert st.naming(x) == st.naming(k) ==> x == k;
  }

  lemma {:induction false} LostExplained(st: Setup, trace: seq<Machine>, steps: seq<Step>, i: nat, k: Key)
    requires ValidSetup(st) && IsRun(st, trace, steps) && i < |trace| && ValidKey(st, k)
    requires st.naming(k) in Lost(st, trace, steps, i)
    ensures DroppedSince(st, trace, steps, i, k)
    decreases i
  {
    var j := i - 1;
    InvInRuns(st, trace, steps, j);
    LostBy(st, trace[j], Lost(st, trace, steps, j), steps[j], k);
    if !DropsAt(trace[j], steps[j], k) {
      LostExplained(st, trace, steps, j, k);
    }
  }

  /**
   In every run, every copy the agent has placed has its source, held back by the finalizer -- unless
   the source itself, by losing its last syncable label, made a commit drop the copy's links, and the
   copy has not been placed again since.
   */
  lemma NoOrphansInRuns(st: Setup, trace: seq<Machine>, steps: seq<Step>, i: nat, id: NsName)
    requires ValidSetup(st) && IsRun(st, trace, steps) && i < |trace|
    requires id in trace[i].placed
    ensures var k := trace[i].placed[id];
            Protected(trace[i], k) || DroppedSince(st, trace, steps, i, k)
  {
    var lost := Lost(st, trace, steps, i);
    InvInRuns(st, trace, steps, i);
    RecordInRuns(st, trace, steps, i);
    if id in lost {
      LostExplained(st, trace, steps, i, trace[i].placed[id]);
    } else {
      assert id in Sighted(trace[i], lost).placed;
    }
  }

  // ---------------------------------------------------------------- dropped links lead to orphans
  /** After a commit that drops links, the copy is still placed, but no search finds it. */
  lemma DroppedCopyLost(st: Setup, m: Machine, k: Key, o: SysOutcome)
    requires ValidSetup(st) && Inv(st, m) && CanEnd(st, m, k, o, true)
    requires m.running[k].copy.Some? && st.naming(k) in m.placed
    ensures var m1 := AfterFinish(st, m, k, o);
            && st.naming(k) in m1.placed && m1.placed[st.naming(k)] == k
            && Found(m1.service, SelectorOf(st, k)) == {}
            && Protected(m1, k) && k !in m1.running && m1.kcp[k].id == k.id && WellFormed(m1.kcp[k])
  {
    var m1 := AfterFinish(st, m, k, o);
    CommitKeys(st, m, k, o, true);
    CommitOwnKept(st, m, k, o, true);
    OwnProtected(st, m, k, o, true);
    SourcesAfter(st, m, k, o, k);
    forall id | id in Found(m1.service, SelectorOf(st, k))
      ensures false
    {
      CommitMatchesPlaced(st, m, k, o, true, id, k);
    }
  }

  /** The copy placed for k is there, its source is not, or no longer held back. */
  predicate Orphaned(st: Setup, m: Machine, k: Key) {
    st.naming(k) in m.placed && m.placed[st.naming(k)] == k && st.naming(k) in m.service && !Protected(m, k)
  }

  /** A call that finds no copy for a source in deletion releases the source. */
  lemma Releases(st: Setup, k: Key, sys: Sys, v: View, ch: Chance)
    requires v.copy.None? && v.source.deleting && sys.primary == Some(v.source) && ch.faults == {}
    ensures var o := Finish(st, k, sys, v, ch);
            !Held(o.sys.primary) && o.sys.dests == sys.dests && o.log == if FINALIZER in v.source.finalizers then [PatchFinalizer] else []
  {
  }

  function Leave(k: Key, m: Machine): Step
    requires k in m.kcp
  {
    EnvSource(k, Some(m.kcp[k].(deleting := true)))
  }

  /**
   From every state in which a commit drops links, three more steps -- the user deletes the source,
   and one undisturbed Process call follows -- leave an orphan.
   */
  lemma DroppedLinksLeadToOrphan(st: Setup, m: Machine, k: Key, ch: Chance, calm: Chance) returns (orphaned: Machine)
    requires ValidSetup(st) && Inv(st, m) && k in m.running && Allowed(st, m, Commit(k, ch))
    requires DropsLinks(m, k, ch)
    requires calm.faults == {} && forall i: nat :: calm.down(i).attempts == [] && calm.up(i).attempts == []
    ensures var m1 := After(st, m, Commit(k, ch));
            && k in m1.kcp && Allowed(st, m1, Leave(k, m1))
            && var m2 := After(st, m1, Leave(k, m1));
            && Allowed(st, m2, Begin(k))
            && var m3 := After(st, m2, Begin(k));
            && Allowed(st, m3, Commit(k, calm))
            && orphaned == After(st, m3, Commit(k, calm))
    ensures Orphaned(st, orphaned, k)
  {
    var o := Finish(st, k, SysOf(m, k), m.running[k], ch);
    CommitEnds(st, m, k, ch);
    assert ViewOk(st, m, k, m.running[k]);
    DroppedCopyLost(st, m, k, o);
    var m1 := AfterFinish(st, m, k, o);
    assert m1 == After(st, m, Commit(k, ch));
    var m2, m3, m4 := LostThenLeft(st, m1, k, calm);
    orphaned := m4;
  }

  lemma LostThenLeft(st: Setup, m1: Machine, k: Key, calm: Chance) returns (m2: Machine, m3: Machine, m4: Machine)
    requires ValidKey(st, k) && Protected(m1, k) && k !in m1.running && m1.kcp[k].id == k.id && WellFormed(m1.kcp[k])
    requires st.naming(k) in m1.placed && m1.placed[st.naming(k)] == k && st.naming(k) in m1.service
    requires Found(m1.service, SelectorOf(st, k)) == {}
    requires calm.faults == {} && forall i: nat :: calm.down(i).attempts == [] && calm.up(i).attempts == []
    ensures Allowed(st, m1, Leave(k, m1)) && m2 == After(st, m1, Leave(k, m1))
    ensures Allowed(st, m2, Begin(k)) && m3 == After(st, m2, Begin(k))
    ensures Allowed(st, m3, Commit(k, calm)) && m4 == After(st, m3, Commit(k, calm))
    ensures Orphaned(st, m4, k)
  {
    m2 := After(st, m1, Leave(k, m1));
    m3 := After(st, m2, Begin(k));
    assert Allowed(st, m3, Commit(k, calm));
    m4 := ReleasedOrphan(st, m3, k, calm);
  }

  lemma ReleasedOrphan(st: Setup, m3: Machine, k: Key, calm: Chance) returns (m4: Machine)
    requires k in m3.running && k in m3.kcp && m3.running[k] == View(m3.kcp[k], None) && m3.kcp[k].deleting
    requires st.naming(k) in m3.placed && m3.placed[st.naming(k)] == k && st.naming(k) in m3.service
    requires calm.faults == {}
    ensures m4 == AfterCommit(st, m3, k, calm) && Orphaned(st, m4, k)
  {
    Releases(st, k, SysOf(m3, k), m3.running[k], calm);
    m4 := AfterCommit(st, m3, k, calm);
    ReleasedUnprotected(st, m3, k, Finish(st, k, SysOf(m3, k), m3.running[k], calm));
  }

  lemma ReleasedUnprotected(st: Setup, m: Machine, k: Key, o: SysOutcome)
    requires !Held(o.sys.primary) && o.sys.dests == m.service && !Placing(o.log)
    requires st.naming(k) in m.placed && m.placed[st.naming(k)] == k && st.naming(k) in m.service
    ensures Orphaned(st, AfterFinish(st, m, k, o), k)
  {
  }
}
