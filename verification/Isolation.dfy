/**
 Owners do not get into each other's way: a pass for one primary and rule leaves every labelled copy of
 another primary or rule exactly as it is, unless it is told to write to that very name.
 */
module Isolation {
  import opened Options
  import opened MergePatches
  import opened Objects
  import opened ObjectSync
  import opened Convergence
  import opened Related
  import opened Lifecycle
  import opened NoOrphanRuns

  // ---------------------------------------------------------------- what one synchronization writes to

  /** Only the object of this name may differ, and objects stay under their own names. */
  ghost predicate OnlyAt(dests: map<NsName, Object>, dests': map<NsName, Object>, id: NsName) {
    && (forall x {:trigger Lookup(dests', x)} | x != id :: Lookup(dests', x) == Lookup(dests, x))
    && (id in dests' ==> dests'[id].id == id)
  }

  lemma OnlyAtTrans(a: map<NsName, Object>, b: map<NsName, Object>, c: map<NsName, Object>, id: NsName)
    requires OnlyAt(a, b, id) && OnlyAt(b, c, id)
    ensures OnlyAt(a, c, id)
  {
    forall x {:trigger Lookup(c, x)} | x != id
      ensures Lookup(c, x) == Lookup(a, x)
    {
      assert Lookup(c, x) == Lookup(b, x) && Lookup(b, x) == Lookup(a, x);
    }
  }

  lemma EnsureOnlyAt(c: Config, w: World, s: Object, f: set<Call>)
    requires StoredUnderId(w.dests)
    ensures OnlyAt(w.dests, EnsureDestination(c, w, s, f).world.dests, c.destId)
  {
    var made := EnsureNamespace(c, w, f);
    PlaceOnlyAt(c, made.world, s, f);
    assert made.world.dests == w.dests;
  }

  lemma PlaceOnlyAt(c: Config, w: World, s: Object, f: set<Call>)
    requires StoredUnderId(w.dests)
    ensures OnlyAt(w.dests, PlaceCopy(c, w, s, f).world.dests, c.destId)
  {
  }

  lemma RestampOnlyAt(c: Config, w: World, d: Object, f: set<Call>)
    requires StoredUnderId(w.dests)
    ensures OnlyAt(w.dests, Restamp(c, w, d, f).world.dests, d.id)
  {
  }

  lemma DeleteOnlyAt(c: Config, w: World, src: Object, dst: Option<Object>, f: set<Call>, id: NsName)
    requires StoredUnderId(w.dests) && (dst.Some? ==> dst.value.id == id)
    ensures OnlyAt(w.dests, HandleDeletion(c, w, src, dst, f).world.dests, id)
  {
  }

  lemma WriteOnlyAt(c: Config, w: World, s: Object, read: Object, d: Object, f: set<Call>)
    requires StoredUnderId(w.dests)
    ensures OnlyAt(w.dests, WriteSpec(c, w, s, read, d, f).world.dests, d.id)
  {
  }

  lemma SpecOnlyAt(c: Config, w: World, s: Object, read: Object, d: Object, f: set<Call>)
    requires StoredUnderId(w.dests)
    ensures OnlyAt(w.dests, SyncSpec(c, w, s, read, d, f).world.dests, d.id)
  {
    SyncSpecDests(c, w, s, read, d, f);
    WriteOnlyAt(c, w, s, read, d, f);
  }

  lemma ForwardOnlyAt(c: Config, w: World, s: Object, current: Object, shown: Object, f: set<Call>)
    requires current.id in w.dests ==> w.dests[current.id].id == current.id
    ensures OnlyAt(w.dests, StatusForward(c, w, s, current, shown, f).world.dests, current.id)
  {
  }

  lemma StatusOnlyAt(c: Config, spec: Outcome, src: Object, s: Object, read: Object, d: Object, f: set<Call>)
    requires read.id == d.id && (d.id in spec.world.dests ==> spec.world.dests[d.id].id == d.id)
    ensures OnlyAt(spec.world.dests, SyncStatus(c, spec, src, s, read, d, f).world.dests, d.id)
  {
    var rewritten := spec.result.Requeue? && d.id in spec.world.dests;
    var current := if rewritten then spec.world.dests[d.id] else read;
    var shown := if rewritten then spec.world.dests[d.id] else d;
    ForwardOnlyAt(c, spec.world, s, current, shown, f);
    var forward := StatusForward(c, spec.world, s, current, shown, f);
    assert StatusBack(c, forward.world, src, s, shown, f).world.dests == forward.world.dests;
  }

  lemma SyncOnlyAt(c: Config, w: World, src: Object, dst: Option<Object>, f: set<Call>)
    requires StoredUnderId(w.dests) && (dst.Some? ==> dst.value.id == c.destId) && ContentOnly(c.mutator)
    ensures OnlyAt(w.dests, Sync(c, w, src, dst, f).world.dests, c.destId)
  {
    var s := MutatedSource(c, src, dst);
    if src.deleting || c.forceDelete {
      DeleteOnlyAt(c, w, src, dst, f, c.destId);
    } else if dst.None? {
      EnsureOnlyAt(c, w, s, f);
    } else {
      var d := MutatedDest(c, s, dst.value);
      RestampOnlyAt(c, w, d, f);
      ContentsOnlyAt(c, w, src, s, dst.value, d, f);
    }
  }

  lemma ContentsOnlyAt(c: Config, w: World, src: Object, s: Object, read: Object, d: Object, f: set<Call>)
    requires StoredUnderId(w.dests) && read.id == d.id
    ensures OnlyAt(w.dests, SyncContents(c, w, src, s, read, d, f).world.dests, d.id)
  {
    var spec := SyncSpec(c, w, s, read, d, f);
    SpecOnlyAt(c, w, s, read, d, f);
    StatusOnlyAt(c, spec, src, s, read, d, f);
    OnlyAtTrans(w.dests, spec.world.dests, SyncContents(c, w, src, s, read, d, f).world.dests, d.id);
  }

  /** The source keeps its name. */
  lemma SyncSourceId(c: Config, w: World, src: Object, dst: Option<Object>, f: set<Call>)
    ensures var p := Sync(c, w, src, dst, f).world.source;
            p.Some? ==> w.source.Some? && p.value.id == w.source.value.id
  {
    var s := MutatedSource(c, src, dst);
    EnsureDestinationState(c, w, s, f);
    if dst.Some? {
      SyncContentsKeeps(c, w, src, s, dst.value, MutatedDest(c, s, dst.value), f);
    }
  }

  // ---------------------------------------------------------------- what one pass writes to

  predicate Stored(w: RelWorld) {
    StoredUnderId(w.origins) && StoredUnderId(w.copies)
  }

  function Originals(ts: seq<Attempt>): set<NsName> {
    set t | t in ts :: t.original.id
  }

  lemma OnlyAtStored(dests: map<NsName, Object>, dests': map<NsName, Object>, id: NsName)
    requires StoredUnderId(dests) && OnlyAt(dests, dests', id)
    ensures StoredUnderId(dests')
  {
    forall x | x in dests'
      ensures dests'[x].id == x
    {
      if x != id {
        assert Lookup(dests', x) == Lookup(dests, x);
      }
    }
  }

  lemma SyncOneTouches(a: Agent, r: Rule, cluster: string, primary: NsName, w: RelWorld, t: Attempt, deleting: bool)
    requires Stored(w) && ContentOnly(r.mutator)
    ensures var w' := SyncOne(a, r, cluster, primary, w, t, deleting).world;
            && Stored(w')
            && OnlyAt(w.copies, w'.copies, t.destination)
            && OnlyAt(w.origins, w'.origins, t.original.id)
  {
    var key := AttemptKey(r, cluster, t);
    var c := PassConfig(a, r, cluster, primary, t, deleting);
    SyncOnlyAt(c, Slot(w, key), t.original, CopyView(w, t), t.faults);
    SyncSourceId(c, Slot(w, key), t.original, CopyView(w, t), t.faults);
    var w' := SyncOne(a, r, cluster, primary, w, t, deleting).world;
    OnlyAtStored(w.copies, w'.copies, t.destination);
    OnlyAtStored(w.origins, w'.origins, t.original.id);
  }

  /** Whatever a pass does before pruning, it does to destinations and originals of its objects. */
  lemma {:induction false} SyncAllTouches(a: Agent, r: Rule, cluster: string, primary: NsName, w: RelWorld, ts: seq<Attempt>, deleting: bool, id: NsName)
    requires Stored(w) && ContentOnly(r.mutator)
    ensures var w' := SyncAll(a, r, cluster, primary, w, ts, deleting).world;
            && Stored(w')
            && (id !in Kept(ts) ==> Lookup(w'.copies, id) == Lookup(w.copies, id))
            && (id !in Originals(ts) ==> Lookup(w'.origins, id) == Lookup(w.origins, id))
    decreases |ts|
  {
    if ts != [] {
      var init, t := ts[..|ts|-1], ts[|ts|-1];
      SyncAllTouches(a, r, cluster, primary, w, init, deleting, id);
      KeptSplits(ts);
      assert t in ts;
      SyncOneTouches(a, r, cluster, primary, SyncAll(a, r, cluster, primary, w, init, deleting).world, t, deleting);
    }
  }

  /** From one set of objects to the other, only objects matching the selector change, and all stay under their names. */
  ghost predicate OnlySelected(w: RelWorld, w': RelWorld, selector: map<string, string>, id: NsName) {
    && Stored(w') && w'.origins == w.origins
    && (id in w.copies && !Matches(w.copies[id].labels, selector) ==> Lookup(w'.copies, id) == Lookup(w.copies, id))
  }

  lemma PruneTouches(w: RelWorld, selector: map<string, string>, keep: set<NsName>, ts: seq<Attempt>, stop: Option<set<NsName>>, id: NsName)
    requires Stored(w)
    ensures OnlySelected(w, Prune(w, selector, keep, ts, stop).world, selector, id)
  {
  }

  lemma StageTouches(a: Agent, r: Rule, cluster: string, view: Object, w: RelWorld, env: PassEnv, deleting: bool, id: NsName)
    requires Stored(w)
    ensures OnlySelected(w, PruneStage(a, r, cluster, view, w, env, deleting).world, CopyLabels(a, cluster, view.id, r.identifier), id)
  {
    var selector := CopyLabels(a, cluster, view.id, r.identifier);
    PruneTouches(w, selector, {}, env.attempts, env.pruneStop, id);
    PruneTouches(w, selector, Kept(env.attempts), env.attempts, env.pruneStop, id);
  }

  /** Bookkeeping touches neither copies nor originals, and comes before pruning. */
  lemma ConcludeStages(a: Agent, r: Rule, cluster: string, view: Object, synced: RelOutcome, env: PassEnv, deleting: bool)
    returns (noted: RelWorld)
    ensures noted.copies == synced.world.copies && noted.origins == synced.world.origins
    ensures var w' := Conclude(a, r, cluster, view, synced, env, deleting).world;
            w' == synced.world || w' == noted || w' == PruneStage(a, r, cluster, view, noted, env, deleting).world
  {
    noted := if r.origin.ServiceOrigin? then Remember(synced.world, r.identifier, view, env.attempts, env.rememberFails).world
             else synced.world;
  }

  lemma SelectedFrom(w: RelWorld, w1: RelWorld, w2: RelWorld, selector: map<string, string>, id: NsName)
    requires w1.copies == w.copies && w1.origins == w.origins && OnlySelected(w1, w2, selector, id)
    ensures OnlySelected(w, w2, selector, id)
  {
  }

  lemma ConcludeTouches(a: Agent, r: Rule, cluster: string, view: Object, synced: RelOutcome, env: PassEnv, deleting: bool, id: NsName)
    requires Stored(synced.world)
    ensures OnlySelected(synced.world, Conclude(a, r, cluster, view, synced, env, deleting).world,
                         CopyLabels(a, cluster, view.id, r.identifier), id)
  {
    var noted := ConcludeStages(a, r, cluster, view, synced, env, deleting);
    StageTouches(a, r, cluster, view, noted, env, deleting, id);
    SelectedFrom(synced.world, noted, PruneStage(a, r, cluster, view, noted, env, deleting).world,
                 CopyLabels(a, cluster, view.id, r.identifier), id);
  }

  /**
   A pass leaves every copy alone that is labelled for another owner or another rule, whatever further
   labels it carries, unless the pass resolves an object to its very name.
   */
  lemma RuleLeavesOthers(a: Agent, r: Rule, cluster: string, view: Object, w: RelWorld, env: PassEnv, deleting: bool, id: NsName,
                         a2: Agent, c2: string, o2: NsName, i2: string)
    requires Stored(w) && ContentOnly(r.mutator) && a.hash == a2.hash && Injective(a.hash)
    requires NulFreeOwner(cluster, a.publishedResource, view.id) && NulFreeOwner(c2, a2.publishedResource, o2)
    requires cluster != c2 || a.publishedResource != a2.publishedResource || view.id != o2 || r.identifier != i2
    requires id in w.copies && Matches(w.copies[id].labels, CopyLabels(a2, c2, o2, i2))
    requires id !in Kept(env.attempts)
    ensures Lookup(ProcessRule(a, r, cluster, view, w, env, deleting).world.copies, id) == Lookup(w.copies, id)
  {
    var synced := SyncAll(a, r, cluster, view.id, w, env.attempts, deleting);
    SyncAllTouches(a, r, cluster, view.id, w, env.attempts, deleting, id);
    assert Lookup(synced.world.copies, id) == Some(w.copies[id]);
    if Matches(w.copies[id].labels, CopyLabels(a, cluster, view.id, r.identifier)) {
      SelectedByOne(w.copies[id].labels, a, cluster, view.id, r.identifier, a2, c2, o2, i2);
    }
    ConcludeTouches(a, r, cluster, view, synced, env, deleting, id);
  }

  lemma RuleStores(a: Agent, r: Rule, cluster: string, view: Object, w: RelWorld, env: PassEnv, deleting: bool, id: NsName)
    requires Stored(w) && ContentOnly(r.mutator)
    ensures var w' := ProcessRule(a, r, cluster, view, w, env, deleting).world;
            && Stored(w')
            && (id !in Originals(env.attempts) ==> Lookup(w'.origins, id) == Lookup(w.origins, id))
  {
    SyncAllTouches(a, r, cluster, view.id, w, env.attempts, deleting, id);
    ConcludeTouches(a, r, cluster, view, SyncAll(a, r, cluster, view.id, w, env.attempts, deleting), env, deleting, id);
  }

  // ---------------------------------------------------------------- what one Process call writes to

  type Places = map<Place, map<NsName, Object>>

  ghost predicate PlacesStored(places: Places) {
    forall p | p in places :: StoredUnderId(places[p])
  }

  /** The pass for this rule is told to synchronize to, or from, the object of this name. */
  predicate Touches(k: Key, r: Rule, env: PassEnv, p: Place, id: NsName) {
    (p == DestPlace(k, r) && id in Kept(env.attempts)) || (p == OriginPlace(k, r) && id in Originals(env.attempts))
  }

  lemma RuleWorldStored(k: Key, r: Rule, sys: Sys)
    requires PlacesStored(sys.places)
    ensures Stored(RuleWorld(k, r, sys))
  {
  }

  lemma AfterRuleStored(k: Key, r: Rule, sys: Sys, w: RelWorld)
    requires PlacesStored(sys.places) && Stored(w)
    ensures PlacesStored(AfterRule(k, r, sys, w).places)
  {
  }

  /** A rule's pass leaves the labelled copies of other primaries alone, wherever they are. */
  lemma RunRuleLeavesOthers(st: Setup, k: Key, sys: Sys, view: Object, r: Rule, env: PassEnv, deleting: bool,
                            p: Place, id: NsName, other: Key, s: string)
    requires ValidSetup(st) && ValidKey(st, k) && ValidKey(st, other) && other != k && view.id == k.id
    requires PlacesStored(sys.places) && ContentOnly(r.mutator) && !Touches(k, r, env, p, id)
    requires id in Get(sys.places, p) && Matches(Get(sys.places, p)[id].labels, CopyLabels(st.agent, other.cluster, other.id, s))
    ensures var places := RunRule(st, k, sys, view, r, env, deleting).sys.places;
            PlacesStored(places) && Lookup(Get(places, p), id) == Lookup(Get(sys.places, p), id)
  {
    var w := RuleWorld(k, r, sys);
    var o := ProcessRule(st.agent, r, k.cluster, view, w, env, deleting);
    RuleWorldStored(k, r, sys);
    RuleStores(st.agent, r, k.cluster, view, w, env, deleting, id);
    AfterRuleStored(k, r, sys, o.world);
    if p == DestPlace(k, r) {
      RuleLeavesOthers(st.agent, r, k.cluster, view, w, env, deleting, id, st.agent, other.cluster, other.id, s);
    }
    AfterRuleReads(k, r, sys, o.world, p);
  }

  ghost predicate Untouched(st: Setup, k: Key, envs: nat -> PassEnv, p: Place, id: NsName) {
    forall i: nat {:trigger envs(i)} | i < |st.rules| :: !Touches(k, st.rules[i], envs(i), p, id)
  }

  /** The object is where it was, and everything is stored properly. */
  ghost predicate Still(places: Places, p: Place, id: NsName, o: Object) {
    PlacesStored(places) && Lookup(Get(places, p), id) == Some(o)
  }

  lemma RunRulesLeaveOthers(st: Setup, k: Key, sys: Sys, view: Object, envs: nat -> PassEnv, deleting: bool,
                            p: Place, id: NsName, o: Object, other: Key, s: string)
    requires ValidSetup(st) && ValidKey(st, k) && ValidKey(st, other) && other != k && view.id == k.id
    requires Still(sys.places, p, id, o) && Untouched(st, k, envs, p, id)
    requires Matches(o.labels, CopyLabels(st.agent, other.cluster, other.id, s))
    ensures Still(RunRules(st, k, sys, view, |st.rules|, envs, deleting).sys.places, p, id, o)
  {
    var P := (n: nat, x: SysOutcome) => Still(x.sys.places, p, id, o);
    forall n: nat, x | n < |st.rules| && P(n, x)
      ensures P(n + 1, OrElse(x, RunRule(st, k, x.sys, view, st.rules[n], envs(n), deleting)))
    {
      assert st.rules[n] in st.rules && !Touches(k, st.rules[n], envs(n), p, id);
      RunRuleLeavesOthers(st, k, x.sys, view, st.rules[n], envs(n), deleting, p, id, other, s);
    }
    assert P(0, SysOutcome(sys, [], Done));
    RunRulesInduction(st, k, sys, view, |st.rules|, envs, deleting, P);
  }

  /** A whole Process call for one primary leaves the labelled related copies of every other primary alone. */
  lemma FinishLeavesOthers(st: Setup, k: Key, sys: Sys, v: View, ch: Chance, p: Place, id: NsName, o: Object, other: Key, s: string)
    requires ValidSetup(st) && ValidKey(st, k) && ValidKey(st, other) && other != k && v.source.id == k.id
    requires Still(sys.places, p, id, o) && Untouched(st, k, ch.down, p, id) && Untouched(st, k, ch.up, p, id)
    requires Matches(o.labels, CopyLabels(st.agent, other.cluster, other.id, s))
    ensures Still(Finish(st, k, sys, v, ch).sys.places, p, id, o)
  {
    var down := Teardown(st, k, sys, v, ch);
    RunRulesLeaveOthers(st, k, sys, v.source, ch.down, true, p, id, o, other, s);
    SyncPrimaryKeepsPlaces(st, k, down.sys, v, ch.faults);
    RunRulesLeaveOthers(st, k, SyncPrimary(st, k, down.sys, v, ch.faults).sys, v.source, ch.up, false, p, id, o, other, s);
  }

  // ---------------------------------------------------------------- runs

  lemma RunRuleStores(st: Setup, k: Key, sys: Sys, view: Object, r: Rule, env: PassEnv, deleting: bool)
    requires PlacesStored(sys.places) && ContentOnly(r.mutator)
    ensures PlacesStored(RunRule(st, k, sys, view, r, env, deleting).sys.places)
  {
    RuleWorldStored(k, r, sys);
    RuleStores(st.agent, r, k.cluster, view, RuleWorld(k, r, sys), env, deleting, k.id);
    AfterRuleStored(k, r, sys, ProcessRule(st.agent, r, k.cluster, view, RuleWorld(k, r, sys), env, deleting).world);
  }

  lemma RunRulesStore(st: Setup, k: Key, sys: Sys, view: Object, envs: nat -> PassEnv, deleting: bool)
    requires PlacesStored(sys.places) && SoundRules(st)
    ensures PlacesStored(RunRules(st, k, sys, view, |st.rules|, envs, deleting).sys.places)
  {
    var P := (n: nat, x: SysOutcome) => PlacesStored(x.sys.places);
    forall n: nat, x | n < |st.rules| && P(n, x)
      ensures P(n + 1, OrElse(x, RunRule(st, k, x.sys, view, st.rules[n], envs(n), deleting)))
    {
      assert st.rules[n] in st.rules;
      RunRuleStores(st, k, x.sys, view, st.rules[n], envs(n), deleting);
    }
    assert P(0, SysOutcome(sys, [], Done));
    RunRulesInduction(st, k, sys, view, |st.rules|, envs, deleting, P);
  }

  lemma FinishStores(st: Setup, k: Key, sys: Sys, v: View, ch: Chance)
    requires PlacesStored(sys.places) && SoundRules(st)
    ensures PlacesStored(Finish(st, k, sys, v, ch).sys.places)
  {
    var down := Teardown(st, k, sys, v, ch);
    RunRulesStore(st, k, sys, v.source, ch.down, true);
    SyncPrimaryKeepsPlaces(st, k, down.sys, v, ch.faults);
    RunRulesStore(st, k, SyncPrimary(st, k, down.sys, v, ch.faults).sys, v.source, ch.up, false);
  }

  lemma StepStores(st: Setup, m: Machine, step: Step)
    requires ValidSetup(st) && Allowed(st, m, step) && PlacesStored(m.places)
    ensures PlacesStored(After(st, m, step).places)
  {
    if step.Commit? {
      FinishStores(st, step.k, SysOf(m, step.k), m.running[step.k], step.chance);
    }
  }

  lemma {:induction false} StoredInRuns(st: Setup, trace: seq<Machine>, steps: seq<Step>, i: nat)
    requires ValidSetup(st) && IsRun(st, trace, steps) && i < |trace|
    ensures PlacesStored(trace[i].places)
    decreases i
  {
    if i > 0 {
      StoredInRuns(st, trace, steps, i - 1);
      StepStores(st, trace[i - 1], steps[i - 1]);
    }
  }

  /**
   In every run, no Process call of one primary deletes, relabels or otherwise changes a labelled related
   copy of another primary, unless the user's rules resolve an object to or from that very name.
   */
  lemma OwnersApartInRuns(st: Setup, trace: seq<Machine>, steps: seq<Step>, i: nat, p: Place, id: NsName, other: Key, s: string)
    requires ValidSetup(st) && IsRun(st, trace, steps) && i < |steps| && steps[i].Commit?
    requires other != steps[i].k && ValidKey(st, other)
    requires id in Get(trace[i].places, p)
    requires Matches(Get(trace[i].places, p)[id].labels, CopyLabels(st.agent, other.cluster, other.id, s))
    requires Untouched(st, steps[i].k, steps[i].chance.down, p, id) && Untouched(st, steps[i].k, steps[i].chance.up, p, id)
    ensures Lookup(Get(trace[i + 1].places, p), id) == Lookup(Get(trace[i].places, p), id)
  {
    var m, k := trace[i], steps[i].k;
    StoredInRuns(st, trace, steps, i);
    InvInRuns(st, trace, steps, i);
    FinishLeavesOthers(st, k, SysOf(m, k), m.running[k], steps[i].chance, p, id, Get(m.places, p)[id], other, s);
  }
}
