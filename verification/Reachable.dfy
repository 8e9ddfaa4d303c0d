/**
 Runs from the empty machine that end where they should not: with an orphaned copy, and with a related
 copy left behind by a released primary.
 */
module Reachable {
  import opened Options
  import opened MergePatches
  import opened Objects
  import opened ObjectSync
  import opened Convergence
  import opened Related
  import opened Lifecycle
  import opened NoOrphanRuns
  import opened TeardownRuns

  const QUIET := PassEnv(false, [], NoReader, false, None)

  /** Nothing fails, nothing resolves. */
  const CALM: Chance := Chance({}, (i: nat) => QUIET, (i: nat) => QUIET)

  function Version(k: Key, labels: map<string, string>, finalizers: set<string>): Object {
    Object("", "", k.id, labels, map[], finalizers, false, map[], map[])
  }

  // ---------------------------------------------------------------- building runs

  lemma Extend(st: Setup, trace: seq<Machine>, steps: seq<Step>, step: Step)
    requires IsRun(st, trace, steps) && Allowed(st, trace[|steps|], step)
    ensures IsRun(st, trace + [After(st, trace[|steps|], step)], steps + [step])
  {
    var trace', steps' := trace + [After(st, trace[|steps|], step)], steps + [step];
    forall i | 0 <= i < |steps'|
      ensures Allowed(st, trace'[i], steps'[i]) && trace'[i + 1] == After(st, trace'[i], steps'[i])
    {
      if i < |steps| {
        assert trace'[i] == trace[i] && trace'[i + 1] == trace[i + 1] && steps'[i] == steps[i];
      }
    }
  }

  /** A run, and where it has led. */
  ghost predicate Leads(st: Setup, trace: seq<Machine>, steps: seq<Step>, m: Machine) {
    IsRun(st, trace, steps) && trace[|steps|] == m
  }

  lemma Go(st: Setup, trace: seq<Machine>, steps: seq<Step>, m: Machine, step: Step) returns (trace': seq<Machine>, steps': seq<Step>)
    requires Leads(st, trace, steps, m) && Allowed(st, m, step)
    ensures Leads(st, trace', steps', After(st, m, step))
  {
    Extend(st, trace, steps, step);
    trace', steps' := trace + [After(st, m, step)], steps + [step];
  }

  lemma CalmAllowed(st: Setup, m: Machine, k: Key)
    requires k in m.running
    ensures Allowed(st, m, Commit(k, CALM))
  {
  }

  // ---------------------------------------------------------------- single commits

  /** A call on an unprotected live source without a copy adds the finalizer, and nothing else. */
  lemma FinalizerCommit(st: Setup, m: Machine, k: Key, src: Object)
    requires k in m.running && m.running[k] == View(src, None) && Lookup(m.kcp, k) == Some(src)
    requires !src.deleting && FINALIZER !in src.finalizers
    ensures var m' := AfterCommit(st, m, k, CALM);
            && m'.kcp == m.kcp[k := src.(finalizers := src.finalizers + {FINALIZER})]
            && m'.service == m.service && m'.running == m.running - {k} && m'.torn == m.torn && m'.places == m.places
            && (k in m.state && EntryKey(k) in m.state[k] <==> EntryKey(k) in m'.state[k])
  {
    var o := Finish(st, k, SysOf(m, k), m.running[k], CALM);
    assert o.log == [PatchFinalizer];
  }

  /** The copy is there, placed and remembered, and nothing else has changed but for the call being over. */
  ghost predicate CreatedBy(st: Setup, m: Machine, k: Key, src: Object, m': Machine) {
    var copy := DesiredCopy(PrimaryConfig(st, k, src), src);
    && m'.kcp == m.kcp && m'.running == m.running - {k} && m'.places == m.places
    && m'.service == m.service[st.naming(k) := copy.(content := st.agent.admit(copy.content))]
    && st.naming(k) in m'.placed && m'.placed[st.naming(k)] == k
    && k in m'.state && EntryKey(k) in m'.state[k] && m'.state[k][EntryKey(k)] == Known(Snapshot(src, st.subresources))
    && m'.torn == m.torn - {k}
  }

  /** A call on a protected live source without a copy, whose name is free, creates the copy and stores the state. */
  lemma CreateCommit(st: Setup, m: Machine, k: Key, src: Object)
    requires k in m.running && m.running[k] == View(src, None) && Lookup(m.kcp, k) == Some(src)
    requires !src.deleting && FINALIZER in src.finalizers && st.naming(k) !in m.service
    ensures Allowed(st, m, Commit(k, CALM)) && CreatedBy(st, m, k, src, After(st, m, Commit(k, CALM)))
  {
    CalmAllowed(st, m, k);
    CreateFinish(st, k, SysOf(m, k), src);
    CreateEnds(st, m, k, src, Finish(st, k, SysOf(m, k), m.running[k], CALM));
  }

  lemma CreateEnds(st: Setup, m: Machine, k: Key, src: Object, o: SysOutcome)
    requires Lookup(m.kcp, k) == Some(src) && MadeCopy(st, k, SysOf(m, k), src, o)
    ensures CreatedBy(st, m, k, src, AfterFinish(st, m, k, o))
  {
    assert Store(m.kcp, k, Some(src)) == m.kcp;
    assert Placing(o.log);
  }

  ghost predicate MadeCopy(st: Setup, k: Key, sys: Sys, src: Object, o: SysOutcome) {
    var copy := DesiredCopy(PrimaryConfig(st, k, src), src);
    && o.sys.primary == sys.primary && o.sys.places == sys.places
    && o.sys.dests == sys.dests[st.naming(k) := copy.(content := st.agent.admit(copy.content))]
    && o.sys.state == sys.state[EntryKey(k) := Known(Snapshot(src, st.subresources))]
    && CreateDest in o.log && DeleteDest !in o.log
  }

  lemma CreateFinish(st: Setup, k: Key, sys: Sys, src: Object)
    requires !src.deleting && FINALIZER in src.finalizers && st.naming(k) !in sys.dests
    ensures MadeCopy(st, k, sys, src, Finish(st, k, sys, View(src, None), CALM))
  {
    var w := World(sys.primary, sys.dests, NamespacesOf(sys.namespaces, ""), Lookup(sys.state, EntryKey(k)));
    CreateOutcome(PrimaryConfig(st, k, src), w, src);
  }

  lemma CreateOutcome(c: Config, w: World, src: Object)
    requires Primary(c) && !src.deleting && FINALIZER in src.finalizers && c.destId !in w.dests
    ensures var o := Sync(c, w, src, None, {});
            var copy := DesiredCopy(c, src);
            && o.result.Requeue? && o.world.source == w.source
            && o.world.dests == w.dests[c.destId := copy.(content := c.admit(copy.content))]
            && o.world.state == Some(Known(Snapshot(src, c.subresources)))
            && CreateDest in o.log && DeleteDest !in o.log
  {
    var made := EnsureNamespace(c, w, {});
    assert made.world.dests == w.dests && made.world.source == w.source;
    assert PlaceCopy(c, made.world, src, {}).log == [CreateDest];
  }

  // ---------------------------------------------------------------- a protected source with its copy

  /** The machine holds one settled source with its copy, and nothing is running. */
  ghost predicate SettledAt(st: Setup, m: Machine, k: Key, src: Object) {
    && Inv(st, m) && m.running == map[] && m.places == map[] && m.torn == {}
    && Lookup(m.kcp, k) == Some(src) && FINALIZER in src.finalizers && !src.deleting
    && st.naming(k) in m.placed && m.placed[st.naming(k)] == k
    && k in m.state && EntryKey(k) in m.state[k] && m.state[k][EntryKey(k)] == Known(Snapshot(src, st.subresources))
    && st.naming(k) in m.service
    && var copy := DesiredCopy(PrimaryConfig(st, k, src), src);
    m.service[st.naming(k)] == copy.(content := st.agent.admit(copy.content))
  }

  lemma EmptyInv(st: Setup)
    ensures Inv(st, EMPTY)
  {
  }

  /** A call that has found no copy has no links to drop. */
  lemma NothingToDrop(m: Machine, k: Key, ch: Chance)
    requires k in m.running && m.running[k].copy.None?
    ensures !DropsLinks(m, k, ch)
  {
  }

  lemma WriteSource(st: Setup, m: Machine, k: Key, src: Object)
    requires ValidSetup(st) && Inv(st, m) && ValidKey(st, k) && src.id == k.id && WellFormed(src)
    requires k in m.kcp && FINALIZER in m.kcp[k].finalizers ==> FINALIZER in src.finalizers && (m.kcp[k].deleting ==> src.deleting)
    ensures Allowed(st, m, EnvSource(k, Some(src)))
    ensures var m' := After(st, m, EnvSource(k, Some(src)));
            m' == m.(kcp := m.kcp[k := src]) && Inv(st, m')
  {
    StepKeepsInv(st, m, EnvSource(k, Some(src)));
  }

  /** A call begins on a source for which no copy is found. */
  lemma BeginWithoutCopy(st: Setup, m: Machine, k: Key)
    requires ValidSetup(st) && Inv(st, m) && k in m.kcp && k !in m.running && Found(m.service, SelectorOf(st, k)) == {}
    ensures Allowed(st, m, Begin(k))
    ensures var m' := After(st, m, Begin(k));
            m' == m.(running := m.running[k := View(m.kcp[k], None)]) && Inv(st, m')
  {
    StepKeepsInv(st, m, Begin(k));
  }

  /** A call begins on a source whose placed copy is found. */
  lemma BeginWithCopy(st: Setup, m: Machine, k: Key)
    requires ValidSetup(st) && Inv(st, m) && k in m.kcp && k !in m.running
    requires st.naming(k) in m.placed && m.placed[st.naming(k)] == k && st.naming(k) in m.service
    ensures Allowed(st, m, Begin(k))
    ensures var m' := After(st, m, Begin(k));
            m' == m.(running := m.running[k := View(m.kcp[k], Some(m.service[st.naming(k)]))]) && Inv(st, m')
  {
    var found := Found(m.service, SelectorOf(st, k));
    assert found == {st.naming(k)};
    PickOnly(found);
    StepKeepsInv(st, m, Begin(k));
  }

  lemma FinalizerStepTaken(st: Setup, m: Machine, k: Key, src: Object)
    requires ValidSetup(st) && Inv(st, m) && k in m.running && m.running[k] == View(src, None) && Lookup(m.kcp, k) == Some(src)
    requires !src.deleting && FINALIZER !in src.finalizers
    ensures Allowed(st, m, Commit(k, CALM))
    ensures var m' := After(st, m, Commit(k, CALM));
            && Inv(st, m')
            && m'.kcp == m.kcp[k := src.(finalizers := src.finalizers + {FINALIZER})]
            && m'.service == m.service && m'.running == m.running - {k} && m'.torn == m.torn && m'.places == m.places
  {
    CalmAllowed(st, m, k);
    NothingToDrop(m, k, CALM);
    FinalizerCommit(st, m, k, src);
    StepKeepsInv(st, m, Commit(k, CALM));
  }

  lemma CreatedIsSettled(st: Setup, m: Machine, k: Key, src: Object, m': Machine)
    requires m.running.Keys == {k} && m.places == map[] && m.torn == {} && Lookup(m.kcp, k) == Some(src)
    requires FINALIZER in src.finalizers && !src.deleting
    requires CreatedBy(st, m, k, src, m') && Inv(st, m')
    ensures SettledAt(st, m', k, src)
  {
  }

  lemma CreateKeepsInv(st: Setup, m: Machine, k: Key)
    requires ValidSetup(st) && Inv(st, m) && k in m.running && m.running[k].copy.None?
    ensures Allowed(st, m, Commit(k, CALM)) && Inv(st, After(st, m, Commit(k, CALM)))
  {
    CalmAllowed(st, m, k);
    NothingToDrop(m, k, CALM);
    StepKeepsInv(st, m, Commit(k, CALM));
  }

  lemma CreateStepTaken(st: Setup, m: Machine, k: Key, src: Object)
    requires ValidSetup(st) && Inv(st, m) && m.running == map[k := View(src, None)] && Lookup(m.kcp, k) == Some(src)
    requires !src.deleting && FINALIZER in src.finalizers && st.naming(k) !in m.service && m.places == map[] && m.torn == {}
    ensures Allowed(st, m, Commit(k, CALM))
    ensures SettledAt(st, After(st, m, Commit(k, CALM)), k, src)
  {
    assert m.running.Keys == {k};
    CreateKeepsInv(st, m, k);
    CreateCommit(st, m, k, src);
    CreatedIsSettled(st, m, k, src, After(st, m, Commit(k, CALM)));
  }

  lemma BegunReachable(st: Setup, k: Key, a0: Object) returns (trace: seq<Machine>, steps: seq<Step>, m: Machine)
    requires ValidSetup(st) && ValidKey(st, k) && a0.id == k.id && WellFormed(a0)
    ensures Leads(st, trace, steps, m) && Inv(st, m)
    ensures m == EMPTY.(kcp := map[k := a0], running := map[k := View(a0, None)])
  {
    trace, steps, m := [EMPTY], [], EMPTY;
    EmptyInv(st);
    WriteSource(st, m, k, a0);
    trace, steps := Go(st, trace, steps, m, EnvSource(k, Some(a0)));
    m := EMPTY.(kcp := map[k := a0]);
    BeginWithoutCopy(st, m, k);
    trace, steps := Go(st, trace, steps, m, Begin(k));
    m := After(st, m, Begin(k));
  }

  /** Every valid source can come to carry the finalizer. */
  lemma ProtectedReachable(st: Setup, k: Key, a0: Object) returns (trace: seq<Machine>, steps: seq<Step>, m: Machine)
    requires ValidSetup(st) && ValidKey(st, k) && a0.id == k.id && WellFormed(a0) && !a0.deleting && FINALIZER !in a0.finalizers
    ensures Leads(st, trace, steps, m) && Inv(st, m)
    ensures m.running == map[] && m.service == map[] && m.places == map[] && m.torn == {}
    ensures Lookup(m.kcp, k) == Some(a0.(finalizers := a0.finalizers + {FINALIZER}))
  {
    trace, steps, m := BegunReachable(st, k, a0);
    FinalizerStepTaken(st, m, k, a0);
    trace, steps := Go(st, trace, steps, m, Commit(k, CALM));
    m := After(st, m, Commit(k, CALM));
  }

  /** Every valid source can come to have its copy. */
  lemma SettledReachable(st: Setup, k: Key, labels: map<string, string>) returns (trace: seq<Machine>, steps: seq<Step>, m: Machine)
    requires ValidSetup(st) && ValidKey(st, k)
    ensures Leads(st, trace, steps, m) && SettledAt(st, m, k, Version(k, labels, {FINALIZER}))
  {
    trace, steps, m := ProtectedReachable(st, k, Version(k, labels, {}));
    assert {} + {FINALIZER} == {FINALIZER};
    trace, steps, m := CreatedReachable(st, k, Version(k, labels, {FINALIZER}), trace, steps, m);
  }

  lemma CreatedReachable(st: Setup, k: Key, src: Object, trace0: seq<Machine>, steps0: seq<Step>, m0: Machine)
    returns (trace: seq<Machine>, steps: seq<Step>, m: Machine)
    requires ValidSetup(st) && Leads(st, trace0, steps0, m0) && Inv(st, m0)
    requires m0.running == map[] && m0.service == map[] && m0.places == map[] && m0.torn == {}
    requires Lookup(m0.kcp, k) == Some(src) && FINALIZER in src.finalizers && !src.deleting
    ensures Leads(st, trace, steps, m) && SettledAt(st, m, k, src)
  {
    BeginWithoutCopy(st, m0, k);
    trace, steps := Go(st, trace0, steps0, m0, Begin(k));
    m := After(st, m0, Begin(k));
    CreateStepTaken(st, m, k, src);
    trace, steps := Go(st, trace, steps, m, Commit(k, CALM));
    m := After(st, m, Commit(k, CALM));
  }

  // ---------------------------------------------------------------- the orphan

  const SOME_LABELS := map["app" := "x"]

  lemma SomeLabelsSyncable()
    ensures SyncableLabels(SOME_LABELS) != map[]
  {
    assert SyncableLabel("app");
    assert "app" in SyncableLabels(SOME_LABELS);
  }

  lemma CopyIsLive(st: Setup, m: Machine, k: Key, src: Object)
    requires SettledAt(st, m, k, src)
    ensures m.service[st.naming(k)].id == st.naming(k) && !m.service[st.naming(k)].deleting
  {
  }

  lemma DropsHere(st: Setup, m: Machine, k: Key, bare: Object, copy: Object, last: Object)
    requires k in m.running && m.running[k] == View(bare, Some(copy))
    requires copy.id in m.placed && copy.id in m.service && !copy.deleting
    requires FINALIZER in bare.finalizers && !bare.deleting && bare.labels == map[]
    requires k in m.state && EntryKey(k) in m.state[k] && m.state[k][EntryKey(k)] == Known(last) && last.labels != map[]
    ensures DropsLinks(m, k, CALM)
  {
    assert SyncableLabels(map[]) == map[];
  }

  /** A settled source loses its only label: the next call drops the links of its copy. */
  lemma DropReachable(st: Setup, k: Key, m: Machine, src: Object)
    requires ValidSetup(st) && ValidKey(st, k) && SettledAt(st, m, k, src) && SyncableLabels(src.labels) != map[]
    requires src.id == k.id && WellFormed(src)
    ensures var bare := src.(labels := map[]);
            && Allowed(st, m, EnvSource(k, Some(bare)))
            && var m1 := After(st, m, EnvSource(k, Some(bare)));
            && Allowed(st, m1, Begin(k))
            && var m2 := After(st, m1, Begin(k));
            && Inv(st, m2) && k in m2.running && Allowed(st, m2, Commit(k, CALM)) && DropsLinks(m2, k, CALM)
  {
    var bare := src.(labels := map[]);
    CopyIsLive(st, m, k, src);
    WriteSource(st, m, k, bare);
    var m1 := After(st, m, EnvSource(k, Some(bare)));
    BeginWithCopy(st, m1, k);
    var m2 := After(st, m1, Begin(k));
    CalmAllowed(st, m2, k);
    DropsHere(st, m2, k, bare, m.service[st.naming(k)], Snapshot(src, st.subresources));
  }

  /** For every setup and source there is a run from nothing to an orphaned copy. */
  lemma OrphanReachable(st: Setup, k: Key) returns (trace: seq<Machine>, steps: seq<Step>)
    requires ValidSetup(st) && ValidKey(st, k)
    ensures IsRun(st, trace, steps) && Orphaned(st, trace[|steps|], k)
  {
    var src := Version(k, SOME_LABELS, {FINALIZER});
    var m;
    trace, steps, m := SettledReachable(st, k, SOME_LABELS);
    SomeLabelsSyncable();
    DropReachable(st, k, m, src);
    trace, steps := Go(st, trace, steps, m, EnvSource(k, Some(src.(labels := map[]))));
    m := After(st, m, EnvSource(k, Some(src.(labels := map[]))));
    trace, steps := Go(st, trace, steps, m, Begin(k));
    m := After(st, m, Begin(k));
    trace, steps := OrphanFollows(st, k, trace, steps, m);
  }

  lemma OrphanFollows(st: Setup, k: Key, trace0: seq<Machine>, steps0: seq<Step>, m0: Machine)
    returns (trace: seq<Machine>, steps: seq<Step>)
    requires ValidSetup(st) && Leads(st, trace0, steps0, m0) && Inv(st, m0)
    requires k in m0.running && Allowed(st, m0, Commit(k, CALM)) && DropsLinks(m0, k, CALM)
    ensures IsRun(st, trace, steps) && Orphaned(st, trace[|steps|], k)
  {
    var orphaned := DroppedLinksLeadToOrphan(st, m0, k, CALM, CALM);
    trace, steps := Go(st, trace0, steps0, m0, Commit(k, CALM));
    var m := After(st, m0, Commit(k, CALM));
    trace, steps := Go(st, trace, steps, m, Leave(k, m));
    m := After(st, m, Leave(k, m));
    trace, steps := Go(st, trace, steps, m, Begin(k));
    m := After(st, m, Begin(k));
    trace, steps := Go(st, trace, steps, m, Commit(k, CALM));
  }

  // ---------------------------------------------------------------- the related copy left behind

  const NAMED := NsName("ns", "related")

  function OriginObject(): Object {
    Object("v1", "", NAMED, map[], map[], {}, false, map[], map[])
  }

  const ATTEMPT := Attempt(OriginObject(), NAMED, Background, false, {})

  /** One related object is resolved by the first rule, and nothing fails. */
  const ONE_RELATED: Chance := Chance({}, (i: nat) => QUIET, (i: nat) => if i == 0 then PassEnv(false, [ATTEMPT], NoReader, false, None) else QUIET)

  /** Mid-life, the copies of the objects resolved in a pass are not pruned. */
  lemma ConcludeKeepsKept(a: Agent, r: Rule, cluster: string, view: Object, synced: RelOutcome, env: PassEnv, id: NsName)
    requires id in Kept(env.attempts)
    ensures var w, w' := synced.world, Conclude(a, r, cluster, view, synced, env, false).world;
            Lookup(w'.copies, id) == Lookup(w.copies, id)
  {
    var noted := if r.origin.ServiceOrigin? then Remember(synced.world, r.identifier, view, env.attempts, env.rememberFails)
                 else RelOutcome(synced.world, Done, {});
    assert noted.world.copies == synced.world.copies;
  }

  lemma CreatedRelated(a: Agent, r: Rule, cluster: string, primary: NsName, w: RelWorld)
    requires r.origin.ServiceOrigin? && w.copies == map[]
    ensures var o := SyncOne(a, r, cluster, primary, w, ATTEMPT, false);
            && o.result.Requeue? && NAMED in o.world.copies
            && Matches(o.world.copies[NAMED].labels, CopyLabels(a, cluster, primary, r.identifier))
  {
    var c := PassConfig(a, r, cluster, primary, ATTEMPT, false);
    var slot := Slot(w, AttemptKey(r, cluster, ATTEMPT));
    var s := MutatedSource(c, ATTEMPT.original, None);
    var made := EnsureNamespace(c, slot, {});
    assert made.world.dests == map[];
    StampMatches(DesiredCopy(c, s).labels, c.destLabels);
    assert Sync(c, slot, ATTEMPT.original, None, {}) == EnsureDestination(c, slot, s, {});
  }

  lemma SyncAllSingle(a: Agent, r: Rule, cluster: string, primary: NsName, w: RelWorld, t: Attempt, deleting: bool)
    ensures var one, all := SyncOne(a, r, cluster, primary, w, t, deleting), SyncAll(a, r, cluster, primary, w, [t], deleting);
            all.world == one.world && all.result == one.result
  {
    assert [t][..0] == [];
    assert SyncAll(a, r, cluster, primary, w, [], deleting) == RelOutcome(w, Done, {});
    assert SyncAll(a, r, cluster, primary, w, [t][..|[t]|-1], deleting) == RelOutcome(w, Done, {});
  }

  lemma RelatedRule(a: Agent, r: Rule, cluster: string, view: Object, w: RelWorld)
    requires r.origin.ServiceOrigin? && w.copies == map[]
    ensures var o := ProcessRule(a, r, cluster, view, w, ONE_RELATED.up(0), false);
            && !o.result.Done?
            && NAMED in Found(o.world.copies, CopyLabels(a, cluster, view.id, r.identifier))
  {
    var env := ONE_RELATED.up(0);
    CreatedRelated(a, r, cluster, view.id, w);
    SyncAllSingle(a, r, cluster, view.id, w, ATTEMPT, false);
    var synced := SyncAll(a, r, cluster, view.id, w, [ATTEMPT], false);
    assert ATTEMPT in [ATTEMPT];
    assert NAMED in Kept([ATTEMPT]);
    ConcludeKeepsKept(a, r, cluster, view, synced, env, NAMED);
    RequeueStays(a, r, cluster, view, synced, env);
  }

  lemma RequeueStays(a: Agent, r: Rule, cluster: string, view: Object, synced: RelOutcome, env: PassEnv)
    requires synced.result.Requeue?
    ensures !Conclude(a, r, cluster, view, synced, env, false).result.Done?
  {
  }

  lemma RelatedPass(st: Setup, k: Key, sys: Sys, view: Object)
    requires |st.rules| > 0 && st.rules[0].origin.ServiceOrigin? && sys.places == map[] && view.id == k.id
    ensures var o := RunRule(st, k, sys, view, st.rules[0], ONE_RELATED.up(0), false);
            && !o.result.Done?
            && NAMED in Found(Get(o.sys.places, DestPlace(k, st.rules[0])), RuleSelector(st, k, st.rules[0]))
  {
    var r := st.rules[0];
    var w := RuleWorld(k, r, sys);
    RelatedRule(st.agent, r, k.cluster, view, w);
    AfterRuleReads(k, r, sys, ProcessRule(st.agent, r, k.cluster, view, w, ONE_RELATED.up(0), false).world, DestPlace(k, r));
  }

  lemma {:induction false} StopsAtFirst(st: Setup, k: Key, sys: Sys, view: Object, n: nat, envs: nat -> PassEnv)
    requires 1 <= n <= |st.rules| && !RunRule(st, k, sys, view, st.rules[0], envs(0), false).result.Done?
    ensures RunRules(st, k, sys, view, n, envs, false) == RunRule(st, k, sys, view, st.rules[0], envs(0), false)
  {
    if n > 1 {
      StopsAtFirst(st, k, sys, view, n - 1, envs);
    } else {
      assert RunRules(st, k, sys, view, 0, envs, false) == SysOutcome(sys, [], Done);
    }
  }

  /** With everything in step there is nothing to do. */
  lemma InSyncOutcome(c: Config, w: World, src: Object, d: Object)
    requires Primary(c) && !src.deleting && !d.deleting && FINALIZER in src.finalizers
    requires w.state == Some(Known(Snapshot(src, c.subresources))) && Linked(c.hash, d, KeyOf(c, src))
    requires StatusOf(src) == StatusOf(d)
    ensures Sync(c, w, src, Some(d), {}) == Outcome(w, [], Done)
  {
    PatchAfterPut(c, w, src, d);
  }

  /** The first rule's related copy is created beside a settled primary. */
  lemma RelatedCommit(st: Setup, m: Machine, k: Key, src: Object, copy: Object)
    requires |st.rules| > 0 && st.rules[0].origin.ServiceOrigin? && m.places == map[] && src.id == k.id
    requires k in m.running && m.running[k] == View(src, Some(copy)) && !src.deleting && !copy.deleting && FINALIZER in src.finalizers
    requires k in m.state && EntryKey(k) in m.state[k] && m.state[k][EntryKey(k)] == Known(Snapshot(src, st.subresources))
    requires Linked(st.agent.hash, copy, KeyOf(PrimaryConfig(st, k, src), src)) && StatusOf(src) == StatusOf(copy)
    ensures var m' := AfterCommit(st, m, k, ONE_RELATED);
            && NAMED in Found(Get(m'.places, DestPlace(k, st.rules[0])), RuleSelector(st, k, st.rules[0]))
            && m'.service == m.service && m'.running == m.running - {k} && m'.torn == m.torn
            && (st.naming(k) in m.placed && st.naming(k) in m.service ==>
                  st.naming(k) in m'.placed && m'.placed[st.naming(k)] == m.placed[st.naming(k)])
  {
    var c, sys, v := PrimaryConfig(st, k, src), SysOf(m, k), m.running[k];
    var w := World(sys.primary, sys.dests, NamespacesOf(sys.namespaces, ""), Lookup(sys.state, EntryKey(k)));
    InSyncOutcome(c, w, src, copy);
    var main := SyncPrimary(st, k, sys, v, {});
    RelatedPass(st, k, main.sys, src);
    StopsAtFirst(st, k, main.sys, src, |st.rules|, ONE_RELATED.up);
    RelatedEnd(st, m, k, RunRule(st, k, main.sys, src, st.rules[0], ONE_RELATED.up(0), false));
    assert Finish(st, k, sys, v, ONE_RELATED) == RunRule(st, k, main.sys, src, st.rules[0], ONE_RELATED.up(0), false);
  }

  lemma RelatedEnd(st: Setup, m: Machine, k: Key, o: SysOutcome)
    requires o.log == [] && o.sys.dests == m.service
    ensures var m' := AfterFinish(st, m, k, o);
            && m'.places == o.sys.places && m'.service == m.service && m'.running == m.running - {k} && m'.torn == m.torn
            && (forall id | id in m.placed && id in m.service :: id in m'.placed && m'.placed[id] == m.placed[id])
  {
  }

  lemma OneRelatedAllowed(st: Setup, m: Machine, k: Key)
    requires k in m.running
    ensures Allowed(st, m, Commit(k, ONE_RELATED))
  {
  }

  /** A source whose labels are as remembered does not make a commit drop links. */
  lemma SameLabelsNoDrop(st: Setup, m: Machine, k: Key, ch: Chance, src: Object)
    requires k in m.running && m.running[k].source == src
    requires k in m.state && EntryKey(k) in m.state[k] && m.state[k][EntryKey(k)] == Known(Snapshot(src, st.subresources))
    ensures !DropsLinks(m, k, ch)
  {
  }

  /** There is a related copy; the primary is protected and has its own copy; nothing is running. */
  ghost predicate RelatedAt(st: Setup, m: Machine, k: Key) {
    && Inv(st, m) && m.running == map[] && m.torn == {} && |st.rules| > 0
    && st.naming(k) in m.placed && m.placed[st.naming(k)] == k
    && NAMED in Found(Get(m.places, DestPlace(k, st.rules[0])), RuleSelector(st, k, st.rules[0]))
  }

  /** The copy of a settled source without status leads back to it and has no status either. */
  lemma CopyInStep(st: Setup, m: Machine, k: Key, src: Object)
    requires SettledAt(st, m, k, src) && src.content == map[] && "status" !in st.agent.admit(map[])
    ensures var copy := m.service[st.naming(k)];
            Linked(st.agent.hash, copy, KeyOf(PrimaryConfig(st, k, src), src)) && StatusOf(src) == StatusOf(copy) && !copy.deleting
  {
    DesiredCopyLinked(PrimaryConfig(st, k, src), src);
  }

  lemma RelatedEndsAt(st: Setup, m: Machine, k: Key, src: Object, copy: Object)
    requires ValidSetup(st) && Inv(st, m) && m.running == map[k := View(src, Some(copy))] && m.places == map[] && m.torn == {}
    requires |st.rules| > 0 && st.rules[0].origin.ServiceOrigin? && src.id == k.id
    requires !src.deleting && !copy.deleting && FINALIZER in src.finalizers
    requires k in m.state && EntryKey(k) in m.state[k] && m.state[k][EntryKey(k)] == Known(Snapshot(src, st.subresources))
    requires Linked(st.agent.hash, copy, KeyOf(PrimaryConfig(st, k, src), src)) && StatusOf(src) == StatusOf(copy)
    requires st.naming(k) in m.placed && st.naming(k) in m.service && m.placed[st.naming(k)] == k
    ensures Allowed(st, m, Commit(k, ONE_RELATED)) && RelatedAt(st, AfterCommit(st, m, k, ONE_RELATED), k)
  {
    RelatedKeepsInv(st, m, k, src);
    RelatedFrom(st, m, k, src, copy);
    RelatedIs(st, AfterCommit(st, m, k, ONE_RELATED), k);
  }

  lemma RelatedFrom(st: Setup, m: Machine, k: Key, src: Object, copy: Object)
    requires m.running == map[k := View(src, Some(copy))] && m.places == map[] && m.torn == {}
    requires |st.rules| > 0 && st.rules[0].origin.ServiceOrigin? && src.id == k.id
    requires !src.deleting && !copy.deleting && FINALIZER in src.finalizers
    requires k in m.state && EntryKey(k) in m.state[k] && m.state[k][EntryKey(k)] == Known(Snapshot(src, st.subresources))
    requires Linked(st.agent.hash, copy, KeyOf(PrimaryConfig(st, k, src), src)) && StatusOf(src) == StatusOf(copy)
    requires st.naming(k) in m.placed && st.naming(k) in m.service && m.placed[st.naming(k)] == k
    ensures var m' := AfterCommit(st, m, k, ONE_RELATED);
            && m'.running == map[] && m'.torn == {} && st.naming(k) in m'.placed && m'.placed[st.naming(k)] == k
            && NAMED in Found(Get(m'.places, DestPlace(k, st.rules[0])), RuleSelector(st, k, st.rules[0]))
  {
    RelatedCommit(st, m, k, src, copy);
    assert m.running - {k} == map[];
  }

  lemma RelatedKeepsInv(st: Setup, m: Machine, k: Key, src: Object)
    requires ValidSetup(st) && Inv(st, m) && k in m.running && m.running[k].source == src
    requires k in m.state && EntryKey(k) in m.state[k] && m.state[k][EntryKey(k)] == Known(Snapshot(src, st.subresources))
    ensures Allowed(st, m, Commit(k, ONE_RELATED)) && Inv(st, AfterCommit(st, m, k, ONE_RELATED))
  {
    OneRelatedAllowed(st, m, k);
    SameLabelsNoDrop(st, m, k, ONE_RELATED, src);
    CommitKeepsInvIff(st, m, k, ONE_RELATED);
  }

  lemma RelatedIs(st: Setup, m: Machine, k: Key)
    requires Inv(st, m) && m.running == map[] && m.torn == {} && |st.rules| > 0
    requires st.naming(k) in m.placed && m.placed[st.naming(k)] == k
    requires NAMED in Found(Get(m.places, DestPlace(k, st.rules[0])), RuleSelector(st, k, st.rules[0]))
    ensures RelatedAt(st, m, k)
  {
  }

  lemma RelatedStepTaken(st: Setup, m: Machine, k: Key, src: Object)
    requires ValidSetup(st) && ValidKey(st, k) && SettledAt(st, m, k, src) && src.id == k.id
    requires |st.rules| > 0 && st.rules[0].origin.ServiceOrigin?
    requires src.content == map[] && "status" !in st.agent.admit(map[])
    ensures Allowed(st, m, Begin(k))
    ensures var m1 := After(st, m, Begin(k));
            && Allowed(st, m1, Commit(k, ONE_RELATED))
            && RelatedAt(st, After(st, m1, Commit(k, ONE_RELATED)), k)
  {
    CopyInStep(st, m, k, src);
    BeginWithCopy(st, m, k);
    RelatedEndsAt(st, After(st, m, Begin(k)), k, src, m.service[st.naming(k)]);
  }

  // ---- the admin removes the local copy, the user deletes the source

  lemma CopyRemoved(st: Setup, m: Machine, k: Key)
    requires ValidSetup(st) && ValidKey(st, k) && RelatedAt(st, m, k)
    ensures Allowed(st, m, EnvService(st.naming(k), None))
    ensures var m1 := After(st, m, EnvService(st.naming(k), None));
            && Inv(st, m1) && m1.kcp == m.kcp && m1.running == map[] && m1.torn == {} && m1.places == m.places
            && Protected(m1, k) && Found(m1.service, SelectorOf(st, k)) == {}
  {
    StepKeepsInv(st, m, EnvService(st.naming(k), None));
    assert Protected(m, k);
  }

  lemma SourceDeleted(st: Setup, m: Machine, k: Key)
    requires ValidSetup(st) && ValidKey(st, k) && Inv(st, m) && Protected(m, k) && m.running == map[]
    requires Found(m.service, SelectorOf(st, k)) == {}
    ensures Allowed(st, m, Leave(k, m))
    ensures var m1 := After(st, m, Leave(k, m));
            && m1.places == m.places && m1.torn == m.torn
            && Allowed(st, m1, Begin(k))
            && var m2 := After(st, m1, Begin(k));
            && m2.places == m.places && m2.torn == m.torn && k in m2.running && k in m2.kcp
            && m2.running[k] == View(m2.kcp[k], None) && m2.kcp[k].deleting
  {
    var gone := m.kcp[k].(deleting := true);
    WriteSource(st, m, k, gone);
    var m1 := After(st, m, EnvSource(k, Some(gone)));
    BeginWithoutCopy(st, m1, k);
  }

  lemma SourceReleased(st: Setup, m: Machine, k: Key)
    requires k in m.running && k in m.kcp && m.running[k] == View(m.kcp[k], None) && m.kcp[k].deleting
    ensures Allowed(st, m, Commit(k, CALM))
    ensures var m1 := After(st, m, Commit(k, CALM));
            !Protected(m1, k) && m1.places == m.places && m1.torn == m.torn
  {
    CalmAllowed(st, m, k);
    Releases(st, k, SysOf(m, k), m.running[k], CALM);
    TeardownSkippedWithoutCopy(st, k, SysOf(m, k), m.running[k], CALM);
  }

  /**
   For every setup whose first rule copies from the service cluster there is a run from nothing to a state
   in which the source has been released and its related copy is still there, whatever the cleanup policy.
   */
  lemma LeftBehindReachable(st: Setup, k: Key) returns (trace: seq<Machine>, steps: seq<Step>)
    requires ValidSetup(st) && ValidKey(st, k)
    requires |st.rules| > 0 && st.rules[0].origin.ServiceOrigin? && "status" !in st.agent.admit(map[])
    ensures IsRun(st, trace, steps)
    ensures !Protected(trace[|steps|], k) && !Gone(st, trace[|steps|].places, k)
  {
    var m;
    trace, steps, m := SettledReachable(st, k, map[]);
    RelatedStepTaken(st, m, k, Version(k, map[], {FINALIZER}));
    trace, steps := Go(st, trace, steps, m, Begin(k));
    m := After(st, m, Begin(k));
    trace, steps := Go(st, trace, steps, m, Commit(k, ONE_RELATED));
    m := After(st, m, Commit(k, ONE_RELATED));
    trace, steps := LeftBehindFollows(st, k, trace, steps, m);
  }

  lemma LeftBehindFollows(st: Setup, k: Key, trace0: seq<Machine>, steps0: seq<Step>, m0: Machine)
    returns (trace: seq<Machine>, steps: seq<Step>)
    requires ValidSetup(st) && ValidKey(st, k) && Leads(st, trace0, steps0, m0) && RelatedAt(st, m0, k)
    ensures IsRun(st, trace, steps)
    ensures !Protected(trace[|steps|], k) && !Gone(st, trace[|steps|].places, k)
  {
    CopyRemoved(st, m0, k);
    trace, steps := Go(st, trace0, steps0, m0, EnvService(st.naming(k), None));
    var m := After(st, m0, EnvService(st.naming(k), None));
    SourceDeleted(st, m, k);
    trace, steps := Go(st, trace, steps, m, Leave(k, m));
    m := After(st, m, Leave(k, m));
    trace, steps := Go(st, trace, steps, m, Begin(k));
    m := After(st, m, Begin(k));
    SourceReleased(st, m, k);
    trace, steps := Go(st, trace, steps, m, Commit(k, CALM));
    assert st.rules[0] in st.rules;
  }
}
