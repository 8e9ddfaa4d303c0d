/**
 Teardown order: the agent deletes the copy of a primary only once no labelled related copy is left,
 and from then on there is none until the primary gets a new copy.
 */
module TeardownRuns {
  import opened Options
  import opened MergePatches
  import opened Objects
  import opened ObjectSync
  import opened Convergence
  import opened Related
  import opened Lifecycle
  import opened NoOrphanRuns

  /** Every rule removes its copies together with the primary. */
  ghost predicate AllCleanUp(st: Setup) {
    forall r | r in st.rules :: !r.cleanup.OrphanCopies?
  }

  ghost predicate Gone(st: Setup, places: map<Place, map<NsName, Object>>, k: Key) {
    forall r | r in st.rules :: Found(Get(places, DestPlace(k, r)), RuleSelector(st, k, r)) == {}
  }

  // ---------------------------------------------------------------- a source in deletion only loses copies

  ghost predicate PlacesOnlyRemove(places: map<Place, map<NsName, Object>>, places': map<Place, map<NsName, Object>>) {
    forall p {:trigger OnlyRemoves(Get(places, p), Get(places', p))} :: OnlyRemoves(Get(places, p), Get(places', p))
  }

  /** Synchronizing never relabels or invents an origin object. */
  lemma SyncKeepsOriginLabels(c: Config, w: World, src: Object, dst: Option<Object>, f: set<Call>)
    ensures var s' := Sync(c, w, src, dst, f).world.source;
            s'.Some? ==> w.source.Some? && s'.value.labels == w.source.value.labels
  {
    var s := MutatedSource(c, src, dst);
    EnsureDestinationState(c, w, s, f);
    if dst.Some? {
      SyncContentsKeeps(c, w, src, s, dst.value, MutatedDest(c, s, dst.value), f);
    }
  }

  lemma {:induction false} SyncAllOrigins(a: Agent, r: Rule, cluster: string, primary: NsName, w: RelWorld, ts: seq<Attempt>, deleting: bool)
    ensures OnlyRemoves(w.origins, SyncAll(a, r, cluster, primary, w, ts, deleting).world.origins)
    decreases |ts|
  {
    if ts != [] {
      var t := ts[|ts|-1];
      SyncAllOrigins(a, r, cluster, primary, w, ts[..|ts|-1], deleting);
      var w1 := SyncAll(a, r, cluster, primary, w, ts[..|ts|-1], deleting).world;
      SyncKeepsOriginLabels(PassConfig(a, r, cluster, primary, t, deleting), Slot(w1, AttemptKey(r, cluster, t)), t.original, CopyView(w1, t), t.faults);
    }
  }

  lemma ConcludeOrigins(a: Agent, r: Rule, cluster: string, view: Object, synced: RelOutcome, env: PassEnv, deleting: bool)
    ensures Conclude(a, r, cluster, view, synced, env, deleting).world.origins == synced.world.origins
  {
  }

  lemma RuleOrigins(a: Agent, r: Rule, cluster: string, view: Object, w: RelWorld, env: PassEnv, deleting: bool)
    ensures OnlyRemoves(w.origins, ProcessRule(a, r, cluster, view, w, env, deleting).world.origins)
  {
    SyncAllOrigins(a, r, cluster, view.id, w, env.attempts, deleting);
    ConcludeOrigins(a, r, cluster, view, SyncAll(a, r, cluster, view.id, w, env.attempts, deleting), env, deleting);
  }

  lemma OnlyRemovesTrans(a: map<NsName, Object>, b: map<NsName, Object>, c: map<NsName, Object>)
    requires OnlyRemoves(a, b) && OnlyRemoves(b, c)
    ensures OnlyRemoves(a, c)
  {
  }

  /** One rule of a teardown: all places only lose, and its own copies are gone when it is done. */
  lemma TeardownRule(st: Setup, k: Key, sys: Sys, view: Object, r: Rule, env: PassEnv)
    requires !r.cleanup.OrphanCopies? && view.id == k.id
    ensures var o := RunRule(st, k, sys, view, r, env, true);
            && PlacesOnlyRemove(sys.places, o.sys.places)
            && (o.result.Done? ==> Found(Get(o.sys.places, DestPlace(k, r)), RuleSelector(st, k, r)) == {})
  {
    var w := RuleWorld(k, r, sys);
    TeardownPass(st.agent, r, k.cluster, view, w, env);
    RuleOrigins(st.agent, r, k.cluster, view, w, env, true);
    var o := ProcessRule(st.agent, r, k.cluster, view, w, env, true);
    forall p
      ensures OnlyRemoves(Get(sys.places, p), Get(AfterRule(k, r, sys, o.world).places, p))
    {
      AfterRuleReads(k, r, sys, o.world, p);
    }
    AfterRuleReads(k, r, sys, o.world, DestPlace(k, r));
  }

  ghost predicate GoneUpTo(st: Setup, places: map<Place, map<NsName, Object>>, k: Key, n: nat)
    requires n <= |st.rules|
  {
    forall i | 0 <= i < n :: Found(Get(places, DestPlace(k, st.rules[i])), RuleSelector(st, k, st.rules[i])) == {}
  }

  lemma GoneStaysGone(st: Setup, places: map<Place, map<NsName, Object>>, places': map<Place, map<NsName, Object>>, k: Key, n: nat)
    requires n <= |st.rules| && GoneUpTo(st, places, k, n) && PlacesOnlyRemove(places, places')
    ensures GoneUpTo(st, places', k, n)
  {
    forall i | 0 <= i < n
      ensures Found(Get(places', DestPlace(k, st.rules[i])), RuleSelector(st, k, st.rules[i])) == {}
    {
      var p := DestPlace(k, st.rules[i]);
      OnlyRemovesShrinks(Get(places, p), Get(places', p), RuleSelector(st, k, st.rules[i]));
    }
  }

  lemma PlacesOnlyRemoveTrans(a: map<Place, map<NsName, Object>>, b: map<Place, map<NsName, Object>>, c: map<Place, map<NsName, Object>>)
    requires PlacesOnlyRemove(a, b) && PlacesOnlyRemove(b, c)
    ensures PlacesOnlyRemove(a, c)
  {
    forall p
      ensures OnlyRemoves(Get(a, p), Get(c, p))
    {
      OnlyRemovesTrans(Get(a, p), Get(b, p), Get(c, p));
    }
  }

  ghost predicate TornDown(st: Setup, k: Key, places: map<Place, map<NsName, Object>>, n: nat, o: SysOutcome) {
    PlacesOnlyRemove(places, o.sys.places) && (o.result.Done? && n <= |st.rules| ==> GoneUpTo(st, o.sys.places, k, n))
  }

  lemma TornDownNext(st: Setup, k: Key, places: map<Place, map<NsName, Object>>, n: nat, before: SysOutcome, o: SysOutcome)
    requires n < |st.rules| && TornDown(st, k, places, n, before) && before.result.Done?
    requires PlacesOnlyRemove(before.sys.places, o.sys.places)
    requires o.result.Done? ==> Found(Get(o.sys.places, DestPlace(k, st.rules[n])), RuleSelector(st, k, st.rules[n])) == {}
    ensures TornDown(st, k, places, n + 1, o)
  {
    PlacesOnlyRemoveTrans(places, before.sys.places, o.sys.places);
    GoneStaysGone(st, before.sys.places, o.sys.places, k, n);
  }

  lemma TeardownNext(st: Setup, k: Key, places: map<Place, map<NsName, Object>>, view: Object, n: nat, before: SysOutcome, env: PassEnv)
    requires AllCleanUp(st) && view.id == k.id
    requires n < |st.rules| && TornDown(st, k, places, n, before)
    ensures TornDown(st, k, places, n + 1, OrElse(before, RunRule(st, k, before.sys, view, st.rules[n], env, true)))
  {
    var r := st.rules[n];
    assert r in st.rules;
    if before.result.Done? {
      TeardownRule(st, k, before.sys, view, r, env);
      TornDownNext(st, k, places, n, before, RunRule(st, k, before.sys, view, r, env, true));
    }
  }

  lemma TeardownRules(st: Setup, k: Key, sys: Sys, view: Object, envs: nat -> PassEnv)
    requires AllCleanUp(st) && view.id == k.id
    ensures TornDown(st, k, sys.places, |st.rules|, RunRules(st, k, sys, view, |st.rules|, envs, true))
  {
    var P := (n: nat, o: SysOutcome) => TornDown(st, k, sys.places, n, o);
    forall n: nat, o | n < |st.rules| && P(n, o)
      ensures P(n + 1, OrElse(o, RunRule(st, k, o.sys, view, st.rules[n], envs(n), true)))
    {
      TeardownNext(st, k, sys.places, view, n, o, envs(n));
    }
    assert P(0, SysOutcome(sys, [], Done));
    RunRulesInduction(st, k, sys, view, |st.rules|, envs, true, P);
  }

  lemma DeletionNeverDone(st: Setup, k: Key, sys: Sys, v: View, f: set<Call>)
    requires v.source.deleting
    ensures var o := SyncPrimary(st, k, sys, v, f);
            && (v.copy.Some? ==> !o.result.Done?)
            && o.sys.places == sys.places
            && (DeleteDest in o.log ==> v.copy.Some?)
            && !Placing(o.log)
  {
  }

  /**
   A call on a source in deletion creates and relabels no related object anywhere, and deletes the
   primary's copy only when no labelled copy of any rule is left.
   */
  lemma DeletingCall(st: Setup, k: Key, sys: Sys, v: View, ch: Chance)
    requires AllCleanUp(st) && v.source.deleting && v.source.id == k.id
    ensures var o := Finish(st, k, sys, v, ch);
            && PlacesOnlyRemove(sys.places, o.sys.places)
            && (DeleteDest in o.log ==> Gone(st, o.sys.places, k))
            && !Placing(o.log)
  {
    TeardownRules(st, k, sys, v.source, ch.down);
    RunRulesLog(st, k, sys, v.source, |st.rules|, ch.down, true);
    var down := Teardown(st, k, sys, v, ch);
    DeletionNeverDone(st, k, down.sys, v, ch.faults);
    var o := Finish(st, k, sys, v, ch);
    assert o.sys.places == down.sys.places;
    if DeleteDest in o.log {
      forall r | r in st.rules
        ensures Found(Get(o.sys.places, DestPlace(k, r)), RuleSelector(st, k, r)) == {}
      {
        var i :| 0 <= i < |st.rules| && st.rules[i] == r;
      }
    }
  }

  // ---------------------------------------------------------------- other primaries' calls

  const PROVENANCE: set<string> := {OWNER_LABEL, IDENTIFIER_LABEL, AGENT_LABEL}

  /** A selector that belongs to another owner than the one whose labels are being stamped. */
  predicate OtherOwner(selector: map<string, string>, stamped: map<string, string>) {
    && selector.Keys <= PROVENANCE
    && OWNER_LABEL in selector && OWNER_LABEL in stamped && selector[OWNER_LABEL] != stamped[OWNER_LABEL]
  }

  /** At each of these labels, the new value is the old one or gone. */
  predicate OnlyLoses(l: map<string, string>, l': map<string, string>) {
    forall x | x in PROVENANCE && x in l' :: x in l && l'[x] == l[x]
  }

  lemma OnlyLosesMatch(l: map<string, string>, l': map<string, string>, selector: map<string, string>)
    requires OnlyLoses(l, l') && selector.Keys <= PROVENANCE && Matches(l', selector)
    ensures Matches(l, selector)
  {
  }

  lemma PatchOnlyLoses(dest: map<string, string>, last: map<string, string>, next: map<string, string>)
    requires next.Keys !! PROVENANCE
    ensures OnlyLoses(dest, PatchMap(dest, last, next))
    ensures OnlyLoses(dest, dest + next)
  {
  }

  /** Stamping one owner's labels never produces a match for another owner. */
  lemma StampedElsewhere(labels: map<string, string>, stamped: map<string, string>, selector: map<string, string>)
    requires OtherOwner(selector, stamped)
    ensures !Matches(labels + stamped, selector)
    ensures !Matches(labels + Missing(labels, stamped), selector)
  {
    assert (labels + stamped)[OWNER_LABEL] == stamped[OWNER_LABEL];
    assert (labels + Missing(labels, stamped))[OWNER_LABEL] == stamped[OWNER_LABEL];
  }

  /** Rewriting one object to something that does not newly match leaves the search result smaller. */
  lemma FoundShrinks(dests: map<NsName, Object>, id: NsName, o: Object, selector: map<string, string>)
    requires Matches(o.labels, selector) ==> id in dests && Matches(dests[id].labels, selector)
    ensures Found(dests[id := o], selector) <= Found(dests, selector)
  {
  }

  lemma EnsureDestinationDests(c: Config, w: World, s: Object, f: set<Call>)
    ensures var dests := EnsureDestination(c, w, s, f).world.dests;
            dests == w.dests || dests == PlaceCopy(c, w, s, f).world.dests
  {
    var made := EnsureNamespace(c, w, f);
    assert PlaceCopy(c, made.world, s, f).world.dests == PlaceCopy(c, w, s, f).world.dests;
  }

  lemma PlaceElsewhere(c: Config, w: World, s: Object, f: set<Call>, selector: map<string, string>)
    requires OtherOwner(selector, c.destLabels)
    ensures Found(EnsureDestination(c, w, s, f).world.dests, selector) <= Found(w.dests, selector)
  {
    EnsureDestinationDests(c, w, s, f);
    var dests := PlaceCopy(c, w, s, f).world.dests;
    if c.destId in dests && dests != w.dests {
      PlacedElsewhere(c, w, s, f, selector);
      FoundShrinks(w.dests, c.destId, dests[c.destId], selector);
    }
  }

  lemma PlacedElsewhere(c: Config, w: World, s: Object, f: set<Call>, selector: map<string, string>)
    requires OtherOwner(selector, c.destLabels)
    requires var dests := PlaceCopy(c, w, s, f).world.dests; c.destId in dests && dests != w.dests
    ensures var dests := PlaceCopy(c, w, s, f).world.dests;
            dests == w.dests[c.destId := dests[c.destId]] && !Matches(dests[c.destId].labels, selector)
  {
    var links := if c.linkDest then KeyLabels(c.hash, KeyOf(c, s)) + AgentLabels(c) else map[];
    StampedElsewhere(SyncableLabels(s.labels) + links, c.destLabels, selector);
    if c.destId in w.dests {
      StampedElsewhere(w.dests[c.destId].labels + KeyLabels(c.hash, KeyOf(c, s)) + AgentLabels(c), c.destLabels, selector);
    }
  }

  lemma HandleDeletionOnlyRemoves(c: Config, w: World, src: Object, dst: Option<Object>, f: set<Call>)
    ensures OnlyRemoves(w.dests, HandleDeletion(c, w, src, dst, f).world.dests)
  {
  }

  lemma ForwardOnlyRemoves(c: Config, w: World, s: Object, current: Object, shown: Object, f: set<Call>)
    ensures OnlyRemoves(w.dests, StatusForward(c, w, s, current, shown, f).world.dests)
  {
  }

  lemma BackKeepsDests(c: Config, w: World, src: Object, s: Object, d: Object, f: set<Call>)
    ensures StatusBack(c, w, src, s, d, f).world.dests == w.dests
  {
  }

  lemma SyncStatusOnlyRemoves(c: Config, spec: Outcome, src: Object, s: Object, read: Object, d: Object, f: set<Call>)
    ensures OnlyRemoves(spec.world.dests, SyncStatus(c, spec, src, s, read, d, f).world.dests)
  {
    var rewritten := spec.result.Requeue? && d.id in spec.world.dests;
    var current := if rewritten then spec.world.dests[d.id] else read;
    var shown := if rewritten then spec.world.dests[d.id] else d;
    ForwardOnlyRemoves(c, spec.world, s, current, shown, f);
    BackKeepsDests(c, StatusForward(c, spec.world, s, current, shown, f).world, src, s, shown, f);
  }

  lemma RestampElsewhere(c: Config, w: World, d: Object, f: set<Call>, selector: map<string, string>)
    requires OtherOwner(selector, c.destLabels)
    requires d.id in w.dests && w.dests[d.id].labels == d.labels
    ensures Found(Restamp(c, w, d, f).world.dests, selector) <= Found(w.dests, selector)
  {
    StampedElsewhere(d.labels, c.destLabels, selector);
    var dests := Restamp(c, w, d, f).world.dests;
    FoundShrinks(w.dests, d.id, dests[d.id], selector);
  }

  lemma UnforgedSyncable(o: Object)
    requires Unforged(o)
    ensures SyncableLabels(o.labels).Keys !! PROVENANCE
  {
  }

  lemma WriteElsewhere(c: Config, w: World, s: Object, read: Object, d: Object, f: set<Call>, selector: map<string, string>)
    requires selector.Keys <= PROVENANCE && Unforged(s) && !c.linkDest
    requires d.id in w.dests && w.dests[d.id].labels == d.labels
    ensures Found(WriteSpec(c, w, s, read, d, f).world.dests, selector) <= Found(w.dests, selector)
  {
    var o := WriteSpec(c, w, s, read, d, f);
    UnforgedSyncable(s);
    if !o.result.Failed? {
      var next := SyncableLabels(s.labels);
      PatchOnlyLoses(d.labels, if HasBase(w) then w.state.value.last.labels else map[], next);
      var copy := o.world.dests[d.id];
      if Matches(copy.labels, selector) {
        OnlyLosesMatch(d.labels, copy.labels, selector);
      }
      FoundShrinks(w.dests, d.id, copy, selector);
    }
  }

  lemma ContentsElsewhere(c: Config, w: World, src: Object, s: Object, read: Object, d: Object, f: set<Call>, selector: map<string, string>)
    requires selector.Keys <= PROVENANCE && Unforged(s) && !c.linkDest
    requires d.id in w.dests && w.dests[d.id].labels == d.labels
    ensures Found(SyncContents(c, w, src, s, read, d, f).world.dests, selector) <= Found(w.dests, selector)
  {
    var spec := SyncSpec(c, w, s, read, d, f);
    SyncSpecDests(c, w, s, read, d, f);
    WriteElsewhere(c, w, s, read, d, f, selector);
    SyncStatusOnlyRemoves(c, spec, src, s, read, d, f);
    OnlyRemovesShrinks(spec.world.dests, SyncContents(c, w, src, s, read, d, f).world.dests, selector);
  }

  lemma SyncLiveElsewhere(c: Config, w: World, src: Object, dst: Option<Object>, f: set<Call>, selector: map<string, string>)
    requires OtherOwner(selector, c.destLabels) && Unforged(src) && ContentOnly(c.mutator) && !c.linkDest
    requires dst.Some? ==> dst.value.id in w.dests && w.dests[dst.value.id].labels == dst.value.labels
    requires !src.deleting && !c.forceDelete
    ensures Found(Sync(c, w, src, dst, f).world.dests, selector) <= Found(w.dests, selector)
  {
    var s := MutatedSource(c, src, dst);
    if dst.None? {
      PlaceElsewhere(c, w, s, f, selector);
    } else {
      var d := MutatedDest(c, s, dst.value);
      RestampElsewhere(c, w, d, f, selector);
      ContentsElsewhere(c, w, src, s, dst.value, d, f, selector);
    }
  }

  /** Synchronizing a copy for one owner never yields a new match for another owner's selector. */
  lemma SyncElsewhere(c: Config, w: World, src: Object, dst: Option<Object>, f: set<Call>, selector: map<string, string>)
    requires OtherOwner(selector, c.destLabels) && Unforged(src) && ContentOnly(c.mutator) && !c.linkDest
    requires dst.Some? ==> dst.value.id in w.dests && w.dests[dst.value.id].labels == dst.value.labels
    ensures Found(Sync(c, w, src, dst, f).world.dests, selector) <= Found(w.dests, selector)
  {
    if src.deleting || c.forceDelete {
      HandleDeletionOnlyRemoves(c, w, src, dst, f);
      OnlyRemovesShrinks(w.dests, HandleDeletion(c, w, src, dst, f).world.dests, selector);
    } else {
      SyncLiveElsewhere(c, w, src, dst, f, selector);
    }
  }

  lemma {:induction false} SyncAllElsewhere(
    a: Agent, r: Rule, cluster: string, primary: NsName, w: RelWorld, ts: seq<Attempt>, deleting: bool, selector: map<string, string>)
    requires OtherOwner(selector, CopyLabels(a, cluster, primary, r.identifier)) && ContentOnly(r.mutator)
    requires forall t | t in ts :: Unforged(t.original)
    ensures Found(SyncAll(a, r, cluster, primary, w, ts, deleting).world.copies, selector) <= Found(w.copies, selector)
    decreases |ts|
  {
    if ts != [] {
      var init, t := ts[..|ts|-1], ts[|ts|-1];
      assert forall x | x in init :: x in ts;
      SyncAllElsewhere(a, r, cluster, primary, w, init, deleting, selector);
      var w1 := SyncAll(a, r, cluster, primary, w, init, deleting).world;
      SyncElsewhere(PassConfig(a, r, cluster, primary, t, deleting), Slot(w1, AttemptKey(r, cluster, t)), t.original, CopyView(w1, t), t.faults, selector);
    }
  }

  lemma RuleElsewhere(a: Agent, r: Rule, cluster: string, view: Object, w: RelWorld, env: PassEnv, deleting: bool, selector: map<string, string>)
    requires OtherOwner(selector, CopyLabels(a, cluster, view.id, r.identifier)) && ContentOnly(r.mutator)
    requires forall t | t in env.attempts :: Unforged(t.original)
    ensures Found(ProcessRule(a, r, cluster, view, w, env, deleting).world.copies, selector) <= Found(w.copies, selector)
  {
    SyncAllElsewhere(a, r, cluster, view.id, w, env.attempts, deleting, selector);
    var synced := SyncAll(a, r, cluster, view.id, w, env.attempts, deleting);
    ConcludeOnlyRemoves(a, r, cluster, view, synced, env, deleting);
    OnlyRemovesShrinks(synced.world.copies, Conclude(a, r, cluster, view, synced, env, deleting).world.copies, selector);
  }

  ghost predicate Shrunk(selector: map<string, string>, places: map<Place, map<NsName, Object>>, places': map<Place, map<NsName, Object>>) {
    forall p {:trigger Get(places', p)} :: Found(Get(places', p), selector) <= Found(Get(places, p), selector)
  }

  lemma RunRuleElsewhere(st: Setup, k: Key, sys: Sys, view: Object, r: Rule, env: PassEnv, deleting: bool, selector: map<string, string>)
    requires OtherOwner(selector, CopyLabels(st.agent, k.cluster, view.id, r.identifier)) && ContentOnly(r.mutator)
    requires forall t | t in env.attempts :: Unforged(t.original)
    ensures Shrunk(selector, sys.places, RunRule(st, k, sys, view, r, env, deleting).sys.places)
  {
    var w := RuleWorld(k, r, sys);
    var w' := ProcessRule(st.agent, r, k.cluster, view, w, env, deleting).world;
    RuleElsewhere(st.agent, r, k.cluster, view, w, env, deleting, selector);
    RuleOrigins(st.agent, r, k.cluster, view, w, env, deleting);
    OnlyRemovesShrinks(w.origins, w'.origins, selector);
    forall p
      ensures Found(Get(AfterRule(k, r, sys, w').places, p), selector) <= Found(Get(sys.places, p), selector)
    {
      AfterRuleReads(k, r, sys, w', p);
    }
  }

  /** The selector of one primary, seen from the calls of another. */
  lemma OtherKeysOwner(st: Setup, k: Key, r: Rule, other: Key, s: Rule)
    requires ValidSetup(st) && ValidKey(st, k) && ValidKey(st, other) && k != other
    ensures OtherOwner(RuleSelector(st, other, s), CopyLabels(st.agent, k.cluster, k.id, r.identifier))
  {
    if RuleSelector(st, other, s)[OWNER_LABEL] == CopyLabels(st.agent, k.cluster, k.id, r.identifier)[OWNER_LABEL] {
      OwnerTupleInjective(other.cluster, st.agent.publishedResource, other.id, k.cluster, st.agent.publishedResource, k.id);
    }
  }

  lemma RunRulesElsewhere(st: Setup, k: Key, sys: Sys, view: Object, envs: nat -> PassEnv, deleting: bool, other: Key, s: Rule)
    requires ValidSetup(st) && ValidKey(st, k) && ValidKey(st, other) && k != other && view.id == k.id
    requires forall i: nat :: forall t | t in envs(i).attempts :: Unforged(t.original)
    ensures Shrunk(RuleSelector(st, other, s), sys.places, RunRules(st, k, sys, view, |st.rules|, envs, deleting).sys.places)
  {
    var selector := RuleSelector(st, other, s);
    var P := (n: nat, o: SysOutcome) => Shrunk(selector, sys.places, o.sys.places);
    forall n: nat, o | n < |st.rules| && P(n, o)
      ensures P(n + 1, OrElse(o, RunRule(st, k, o.sys, view, st.rules[n], envs(n), deleting)))
    {
      OtherKeysOwner(st, k, st.rules[n], other, s);
      assert st.rules[n] in st.rules;
      RunRuleElsewhere(st, k, o.sys, view, st.rules[n], envs(n), deleting, selector);
      ShrunkTrans(selector, sys.places, o.sys.places, RunRule(st, k, o.sys, view, st.rules[n], envs(n), deleting).sys.places);
    }
    RunRulesInduction(st, k, sys, view, |st.rules|, envs, deleting, P);
  }

  lemma ShrunkTrans(
    selector: map<string, string>, a: map<Place, map<NsName, Object>>, b: map<Place, map<NsName, Object>>, c: map<Place, map<NsName, Object>>)
    requires Shrunk(selector, a, b) && Shrunk(selector, b, c)
    ensures Shrunk(selector, a, c)
  {
    forall p
      ensures Found(Get(c, p), selector) <= Found(Get(a, p), selector)
    {
      assert Found(Get(c, p), selector) <= Found(Get(b, p), selector);
    }
  }

  ghost predicate AllUnforged(envs: nat -> PassEnv) {
    forall i: nat :: forall t | t in envs(i).attempts :: Unforged(t.original)
  }

  /** No call for one primary adds a copy that counts for another primary. */
  lemma FinishElsewhere(st: Setup, k: Key, sys: Sys, v: View, ch: Chance, other: Key, s: Rule)
    requires ValidSetup(st) && ValidKey(st, k) && ValidKey(st, other) && k != other && v.source.id == k.id
    requires AllUnforged(ch.down) && AllUnforged(ch.up)
    ensures Shrunk(RuleSelector(st, other, s), sys.places, Finish(st, k, sys, v, ch).sys.places)
  {
    var selector := RuleSelector(st, other, s);
    RunRulesElsewhere(st, k, sys, v.source, ch.down, true, other, s);
    var down := Teardown(st, k, sys, v, ch);
    MainElsewhere(st, k, down.sys, v, ch, other, s);
    ShrunkTrans(selector, sys.places, down.sys.places, FinishMain(st, k, down.sys, v, ch).sys.places);
  }

  lemma MainElsewhere(st: Setup, k: Key, sys: Sys, v: View, ch: Chance, other: Key, s: Rule)
    requires ValidSetup(st) && ValidKey(st, k) && ValidKey(st, other) && k != other && v.source.id == k.id
    requires AllUnforged(ch.up)
    ensures Shrunk(RuleSelector(st, other, s), sys.places, FinishMain(st, k, sys, v, ch).sys.places)
  {
    SyncPrimaryKeepsPlaces(st, k, sys, v, ch.faults);
    RunRulesElsewhere(st, k, SyncPrimary(st, k, sys, v, ch.faults).sys, v.source, ch.up, false, other, s);
  }

  // ---------------------------------------------------------------- whole runs

  /** A primary whose copy the agent has deleted. */
  ghost predicate TornOk(st: Setup, m: Machine, k: Key) {
    && ValidKey(st, k)
    && Gone(st, m.places, k)
    && (forall id | id in m.placed && m.placed[id] == k :: k in m.kcp && m.kcp[k].deleting)
    && (k in m.running ==> m.running[k].source.deleting || m.running[k].copy.None?)
  }

  ghost predicate TearInv(st: Setup, m: Machine) {
    forall k | k in m.torn :: TornOk(st, m, k)
  }

  lemma GoneShrinks(st: Setup, places: map<Place, map<NsName, Object>>, places': map<Place, map<NsName, Object>>, k: Key)
    requires Gone(st, places, k)
    requires forall r | r in st.rules :: Shrunk(RuleSelector(st, k, r), places, places')
    ensures Gone(st, places', k)
  {
    forall r | r in st.rules
      ensures Found(Get(places', DestPlace(k, r)), RuleSelector(st, k, r)) == {}
    {
      assert Shrunk(RuleSelector(st, k, r), places, places');
    }
  }

  lemma GoneOnlyRemove(st: Setup, places: map<Place, map<NsName, Object>>, places': map<Place, map<NsName, Object>>, k: Key)
    requires Gone(st, places, k) && PlacesOnlyRemove(places, places')
    ensures Gone(st, places', k)
  {
    forall r | r in st.rules
      ensures Found(Get(places', DestPlace(k, r)), RuleSelector(st, k, r)) == {}
    {
      OnlyRemovesShrinks(Get(places, DestPlace(k, r)), Get(places', DestPlace(k, r)), RuleSelector(st, k, r));
    }
  }

  /** The copies placed for a source after a call: those from before, or the one just placed. */
  lemma PlacedForAfter(st: Setup, m: Machine, k: Key, o: SysOutcome, dropped: bool, owner: Key, id: NsName)
    requires ValidSetup(st) && Inv(st, m) && CanEnd(st, m, k, o, dropped)
    requires var m' := AfterFinish(st, m, k, o); id in m'.placed && m'.placed[id] == owner
    requires owner != k || !Placing(o.log)
    ensures id in m.placed && m.placed[id] == owner
  {
    if id == st.naming(k) {
      CommitProtectsOwn(st, m, k, o, dropped);
    } else {
      CommitOtherPlaced(st, m, k, o, dropped, id);
    }
  }

  lemma OthersStayDeleting(st: Setup, m: Machine, k: Key, o: SysOutcome, dropped: bool, owner: Key, id: NsName)
    requires ValidSetup(st) && Inv(st, m) && CanEnd(st, m, k, o, dropped)
    requires owner != k && TornOk(st, m, owner)
    requires var m' := AfterFinish(st, m, k, o); id in m'.placed && m'.placed[id] == owner
    ensures owner in m.kcp && m.kcp[owner].deleting
  {
    PlacedForAfter(st, m, k, o, dropped, owner, id);
  }

  lemma OthersStayTorn(st: Setup, m: Machine, k: Key, o: SysOutcome, dropped: bool, owner: Key)
    requires ValidSetup(st) && Inv(st, m) && CanEnd(st, m, k, o, dropped)
    requires owner != k && TornOk(st, m, owner) && Gone(st, o.sys.places, owner)
    ensures TornOk(st, AfterFinish(st, m, k, o), owner)
  {
    var m' := AfterFinish(st, m, k, o);
    assert Lookup(m'.kcp, owner) == Lookup(m.kcp, owner);
    forall id | id in m'.placed && m'.placed[id] == owner
      ensures owner in m'.kcp && m'.kcp[owner].deleting
    {
      OthersStayDeleting(st, m, k, o, dropped, owner, id);
      assert Lookup(m'.kcp, owner) == Some(m.kcp[owner]);
    }
  }

  lemma OwnTorn(st: Setup, m: Machine, k: Key, o: SysOutcome, dropped: bool)
    requires ValidSetup(st) && Inv(st, m) && CanEnd(st, m, k, o, dropped)
    requires !Placing(o.log) && Gone(st, o.sys.places, k)
    requires m.running[k].source.deleting || m.running[k].copy.None?
    requires m.running[k].source.deleting || TornOk(st, m, k)
    ensures TornOk(st, AfterFinish(st, m, k, o), k)
  {
    var m' := AfterFinish(st, m, k, o);
    var v := m.running[k];
    assert ViewOk(st, m, k, v) && ValidKey(st, k);
    forall id | id in m'.placed && m'.placed[id] == k
      ensures k in m'.kcp && m'.kcp[k].deleting
    {
      PlacedForAfter(st, m, k, o, dropped, k, id);
      CommitProtectsOne(st, m, k, o, dropped, id);
      assert v.copy.Some? && m.kcp[k].deleting;
    }
  }

  lemma DeleteMeansDeleting(st: Setup, k: Key, sys: Sys, v: View, ch: Chance)
    ensures DeleteDest in Finish(st, k, sys, v, ch).log ==> v.source.deleting && v.copy.Some?
    ensures v.copy.None? ==> Finish(st, k, sys, v, ch).sys.places == sys.places
  {
    RunRulesLog(st, k, sys, v.source, |st.rules|, ch.down, true);
    SyncPrimaryKeepsPlaces(st, k, sys, v, ch.faults);
    PrimaryDeletes(st, k, Teardown(st, k, sys, v, ch).sys, v, ch.faults);
  }

  lemma PrimaryDeletes(st: Setup, k: Key, sys: Sys, v: View, f: set<Call>)
    ensures DeleteDest in SyncPrimary(st, k, sys, v, f).log ==> v.source.deleting && v.copy.Some?
  {
    var c := PrimaryConfig(st, k, v.source);
    var w := World(sys.primary, sys.dests, NamespacesOf(sys.namespaces, ""), Lookup(sys.state, EntryKey(k)));
    NoDeleteInContent(c, w, v.source, v.copy, f);
  }

  lemma NoDeleteInContent(c: Config, w: World, src: Object, dst: Option<Object>, f: set<Call>)
    requires Primary(c)
    ensures DeleteDest in Sync(c, w, src, dst, f).log ==> src.deleting && dst.Some?
  {
    if !src.deleting && FINALIZER in src.finalizers {
      if dst.None? {
        NoDeleteInPlacing(c, w, src, f);
      } else {
        var spec := SyncSpec(c, w, src, dst.value, dst.value, f);
        NoDeleteInSpec(c, w, src, dst.value, dst.value, f);
        SyncStatusLog(c, spec, src, src, dst.value, dst.value, f);
      }
    }
  }

  lemma NoDeleteInPlacing(c: Config, w: World, s: Object, f: set<Call>)
    ensures DeleteDest !in EnsureDestination(c, w, s, f).log
  {
  }

  lemma NoDeleteInSpec(c: Config, w: World, s: Object, read: Object, d: Object, f: set<Call>)
    ensures DeleteDest !in SyncSpec(c, w, s, read, d, f).log
  {
  }

  lemma CommitOwnTorn(st: Setup, m: Machine, k: Key, ch: Chance)
    requires ValidSetup(st) && AllCleanUp(st) && Inv(st, m) && TearInv(st, m) && Allowed(st, m, Commit(k, ch))
    requires k in TornAfter(m, k, Finish(st, k, SysOf(m, k), m.running[k], ch).log)
    ensures TornOk(st, AfterCommit(st, m, k, ch), k)
  {
    var v := m.running[k];
    var o := Finish(st, k, SysOf(m, k), v, ch);
    CommitEnds(st, m, k, ch);
    DeleteMeansDeleting(st, k, SysOf(m, k), v, ch);
    if v.source.deleting {
      DeletingCall(st, k, SysOf(m, k), v, ch);
      if k in m.torn {
        GoneOnlyRemove(st, m.places, o.sys.places, k);
      }
    }
    OwnTorn(st, m, k, o, Dropping(k, SysOf(m, k), v, ch.faults));
  }

  lemma CommitOtherTorn(st: Setup, m: Machine, k: Key, ch: Chance, owner: Key)
    requires ValidSetup(st) && Inv(st, m) && Allowed(st, m, Commit(k, ch))
    requires owner != k && TornOk(st, m, owner)
    ensures TornOk(st, AfterCommit(st, m, k, ch), owner)
  {
    var v := m.running[k];
    var o := Finish(st, k, SysOf(m, k), v, ch);
    CommitEnds(st, m, k, ch);
    forall r | r in st.rules
      ensures Shrunk(RuleSelector(st, owner, r), m.places, o.sys.places)
    {
      FinishElsewhere(st, k, SysOf(m, k), v, ch, owner, r);
    }
    GoneShrinks(st, m.places, o.sys.places, owner);
    OthersStayTorn(st, m, k, o, Dropping(k, SysOf(m, k), v, ch.faults), owner);
  }

  lemma CommitKeepsTearInv(st: Setup, m: Machine, k: Key, ch: Chance)
    requires ValidSetup(st) && AllCleanUp(st) && Inv(st, m) && TearInv(st, m) && Allowed(st, m, Commit(k, ch))
    ensures TearInv(st, AfterCommit(st, m, k, ch))
  {
    forall owner | owner in AfterCommit(st, m, k, ch).torn
      ensures TornOk(st, AfterCommit(st, m, k, ch), owner)
    {
      if owner == k {
        CommitOwnTorn(st, m, k, ch);
      } else {
        CommitOtherTorn(st, m, k, ch, owner);
      }
    }
  }

  lemma StepKeepsTearInv(st: Setup, m: Machine, step: Step)
    requires ValidSetup(st) && AllCleanUp(st) && Inv(st, m) && TearInv(st, m) && Allowed(st, m, step)
    ensures TearInv(st, After(st, m, step))
  {
    if step.Commit? {
      CommitKeepsTearInv(st, m, step.k, step.chance);
    } else {
      forall k | k in m.torn
        ensures TornOk(st, After(st, m, step), k)
      {
        EnvKeepsTorn(st, m, step, k);
      }
    }
  }

  lemma EnvSourceKeepsTorn(st: Setup, m: Machine, x: Key, source: Option<Object>, k: Key)
    requires NoOrphans(m) && TornOk(st, m, k) && Allowed(st, m, EnvSource(x, source))
    ensures TornOk(st, After(st, m, EnvSource(x, source)), k)
  {
    forall id | id in m.placed && m.placed[id] == k
      ensures Protected(m, k)
    {
    }
  }

  lemma EnvPlaceKeepsTorn(st: Setup, m: Machine, place: Place, objects: map<NsName, Object>, k: Key)
    requires TornOk(st, m, k) && Allowed(st, m, EnvPlace(place, objects))
    ensures TornOk(st, After(st, m, EnvPlace(place, objects)), k)
  {
    var places' := m.places[place := objects];
    forall r | r in st.rules
      ensures Found(Get(places', DestPlace(k, r)), RuleSelector(st, k, r)) == {}
    {
      assert Found(objects, RuleSelector(st, k, r)) <= Found(Get(m.places, place), RuleSelector(st, k, r));
    }
  }

  lemma EnvKeepsTorn(st: Setup, m: Machine, step: Step, k: Key)
    requires Inv(st, m) && TornOk(st, m, k) && Allowed(st, m, step) && !step.Commit?
    ensures TornOk(st, After(st, m, step), k)
  {
    match step
    case EnvSource(x, source) => EnvSourceKeepsTorn(st, m, x, source, k);
    case Begin(x) => BeginKeepsTorn(st, m, x, k);
    case EnvPlace(place, objects) => EnvPlaceKeepsTorn(st, m, place, objects, k);
    case EnvService(id, copy) =>
    case EnvNamespaces(ns) =>
    case Abort(x) =>
  }

  lemma BeginKeepsTorn(st: Setup, m: Machine, x: Key, k: Key)
    requires Inv(st, m) && TornOk(st, m, k) && Allowed(st, m, Begin(x))
    ensures TornOk(st, After(st, m, Begin(x)), k)
  {
    var m' := After(st, m, Begin(x));
    BeginView(st, m, x, m'.running[x]);
    if x == k && m'.running[k].copy.Some? {
      var id := Pick(Found(m.service, SelectorOf(st, k)));
      assert Matches(m.service[id].labels, SelectorOf(st, k));
      assert m.placed[id] == k;
    }
  }

  /** With fewer copies on record there is less to be said about torn-down primaries. */
  lemma TearShrinks(st: Setup, m: Machine, a: set<NsName>, b: set<NsName>)
    requires TearInv(st, Sighted(m, a)) && a <= b
    ensures TearInv(st, Sighted(m, b))
  {
    forall k | k in m.torn
      ensures TornOk(st, Sighted(m, b), k)
    {
      assert TornOk(st, Sighted(m, a), k);
      forall id | id in Sighted(m, b).placed && Sighted(m, b).placed[id] == k
        ensures k in m.kcp && m.kcp[k].deleting
      {
        assert id in Sighted(m, a).placed && Sighted(m, a).placed[id] == k;
      }
    }
  }

  lemma StepKeepsTearSighted(st: Setup, m: Machine, lost: set<NsName>, step: Step)
    requires ValidSetup(st) && AllCleanUp(st) && Allowed(st, m, step)
    requires Inv(st, Sighted(m, lost)) && TearInv(st, Sighted(m, lost))
    ensures TearInv(st, Sighted(After(st, m, step), LostAfter(st, m, lost, step)))
  {
    SightedAllowed(st, m, lost, step);
    StepKeepsTearInv(st, Sighted(m, lost), step);
    if step.Commit? {
      var k := step.k;
      var o := Finish(st, k, SysOf(m, k), m.running[k], step.chance);
      SightedFinish(st, m, lost, k, o);
      TearShrinks(st, AfterFinish(st, m, k, o), if Placing(o.log) then lost - {st.naming(k)} else lost, LostAfter(st, m, lost, step));
    }
  }

  lemma {:induction false} TearInvInRuns(st: Setup, trace: seq<Machine>, steps: seq<Step>, i: nat)
    requires ValidSetup(st) && AllCleanUp(st) && IsRun(st, trace, steps)
    requires i < |trace|
    ensures TearInv(st, Sighted(trace[i], Lost(st, trace, steps, i)))
    decreases i
  {
    if i > 0 {
      TearInvInRuns(st, trace, steps, i - 1);
      InvInRuns(st, trace, steps, i - 1);
      StepKeepsTearSighted(st, trace[i - 1], Lost(st, trace, steps, i - 1), steps[i - 1]);
    }
  }

  /**
   In every run, whenever the agent has deleted the copy of a primary and not placed a new one, no
   labelled related copy of that primary exists.
   */
  lemma TeardownOrderInRuns(st: Setup, trace: seq<Machine>, steps: seq<Step>, i: nat, k: Key)
    requires ValidSetup(st) && AllCleanUp(st) && IsRun(st, trace, steps)
    requires i < |trace| && k in trace[i].torn
    ensures Gone(st, trace[i].places, k)
  {
    TearInvInRuns(st, trace, steps, i);
    assert TornOk(st, Sighted(trace[i], Lost(st, trace, steps, i)), k);
  }

  /**
   The teardown depends on the copy being found: if it is already gone, the source is released and
   every related object stays where it is.
   */
  lemma TeardownSkippedWithoutCopy(st: Setup, k: Key, sys: Sys, v: View, ch: Chance)
    requires v.source.deleting && v.copy.None? && sys.primary == Some(v.source) && ch.faults == {}
    ensures !Held(Finish(st, k, sys, v, ch).sys.primary)
    ensures Finish(st, k, sys, v, ch).sys.places == sys.places
  {
    Releases(st, k, sys, v, ch);
    DeleteMeansDeleting(st, k, sys, v, ch);
  }

  /**
   In every run: a released source that still has labelled related copies is one whose copy the agent did
   not delete -- somebody else did, or it had lost its links.
   */
  lemma LeftBehindOnlyUntorn(st: Setup, trace: seq<Machine>, steps: seq<Step>, i: nat, k: Key)
    requires ValidSetup(st) && AllCleanUp(st) && IsRun(st, trace, steps) && i < |trace|
    requires !Protected(trace[i], k) && !Gone(st, trace[i].places, k)
    ensures k !in trace[i].torn
  {
    if k in trace[i].torn {
      TeardownOrderInRuns(st, trace, steps, i, k);
    }
  }
}
