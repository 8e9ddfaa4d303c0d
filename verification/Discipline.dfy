/**
 What users can do to keep a copy from losing its links: never take the last syncable label away from a
 source that once had one. It is a matter of each source by itself.
 */
module LabelDiscipline {
  import opened Options
  import opened MergePatches
  import opened Objects
  import opened ObjectSync
  import opened Convergence
  import opened Related
  import opened Lifecycle
  import opened NoOrphanRuns

  predicate Labelled(o: Object) {
    SyncableLabels(o.labels) != map[]
  }

  /** The user writes a version of this source. */
  predicate Writes(step: Step, k: Key) {
    step.EnvSource? && step.k == k && step.source.Some?
  }

  /** From this step on, every version of the source that users write is labelled. */
  predicate Onward(steps: seq<Step>, i: nat, k: Key) {
    forall l | i <= l < |steps| && Writes(steps[l], k) :: Labelled(steps[l].source.value)
  }

  /** Once labelled, always labelled; a source that never carries a syncable label is fine as well. */
  predicate StaysLabelled(steps: seq<Step>, k: Key) {
    forall i | 0 <= i < |steps| && Writes(steps[i], k) && Labelled(steps[i].source.value) :: Onward(steps, i + 1, k)
  }

  /** No related object resolved for this primary has its namespace and name, and so its state entry. */
  ghost predicate StateApart(steps: seq<Step>, k: Key) {
    forall i | 0 <= i < |steps| && steps[i].Commit? && steps[i].k == k :: Apart(steps[i].chance, k)
  }

  ghost predicate Apart(ch: Chance, k: Key) {
    && (forall n: nat {:trigger ch.down(n)} :: forall t | t in ch.down(n).attempts :: t.original.id != k.id)
    && (forall n: nat {:trigger ch.up(n)} :: forall t | t in ch.up(n).attempts :: t.original.id != k.id)
  }

  // ---------------------------------------------------------------- the state entry of a primary

  lemma {:induction false} SyncAllEntry(a: Agent, r: Rule, cluster: string, primary: NsName, w: RelWorld, ts: seq<Attempt>, deleting: bool, e: StateKey)
    requires forall t | t in ts :: t.original.id != e.id
    ensures Lookup(SyncAll(a, r, cluster, primary, w, ts, deleting).world.state, e) == Lookup(w.state, e)
    decreases |ts|
  {
    if ts != [] {
      SyncAllEntry(a, r, cluster, primary, w, ts[..|ts|-1], deleting, e);
    }
  }

  lemma RunRuleEntry(st: Setup, k: Key, sys: Sys, view: Object, r: Rule, env: PassEnv, deleting: bool)
    requires forall t | t in env.attempts :: t.original.id != k.id
    ensures Lookup(RunRule(st, k, sys, view, r, env, deleting).sys.state, EntryKey(k)) == Lookup(sys.state, EntryKey(k))
  {
    var w := RuleWorld(k, r, sys);
    SyncAllEntry(st.agent, r, k.cluster, view.id, w, env.attempts, deleting, EntryKey(k));
    ConcludeFrame(st.agent, r, k.cluster, view, SyncAll(st.agent, r, k.cluster, view.id, w, env.attempts, deleting), env, deleting);
  }

  lemma RunRulesEntry(st: Setup, k: Key, sys: Sys, view: Object, envs: nat -> PassEnv, deleting: bool)
    requires forall n: nat {:trigger envs(n)} :: forall t | t in envs(n).attempts :: t.original.id != k.id
    ensures Lookup(RunRules(st, k, sys, view, |st.rules|, envs, deleting).sys.state, EntryKey(k)) == Lookup(sys.state, EntryKey(k))
  {
    var P := (n: nat, o: SysOutcome) => Lookup(o.sys.state, EntryKey(k)) == Lookup(sys.state, EntryKey(k));
    forall n: nat, o | n < |st.rules| && P(n, o)
      ensures P(n + 1, OrElse(o, RunRule(st, k, o.sys, view, st.rules[n], envs(n), deleting)))
    {
      RunRuleEntry(st, k, o.sys, view, st.rules[n], envs(n), deleting);
    }
    assert P(0, SysOutcome(sys, [], Done));
    RunRulesInduction(st, k, sys, view, |st.rules|, envs, deleting, P);
  }

  /** The entry is as before, or a snapshot with the labels of this source version. */
  predicate EntryFrom(before: Option<Blob>, after: Option<Blob>, src: Object) {
    after == before || (after.Some? && after.value.Known? && after.value.last.labels == SyncableLabels(src.labels))
  }

  lemma SnapshotLabels(c: Config, s: Object, d: Object)
    ensures Snapshot(s, c.subresources).labels == SyncableLabels(s.labels)
    ensures Snapshot(Strip(s), c.subresources).labels == SyncableLabels(s.labels)
    ensures Snapshot(Revision(c, s, d), c.subresources).labels == SyncableLabels(s.labels)
  {
    RepairedLabelsStripped(s.labels, map[]);
    assert SyncableLabels(s.labels) + map[] == SyncableLabels(s.labels);
    if c.linkDest {
      RepairInvisibleToSnapshot(c.hash, s, d, KeyOf(c, s), c.subresources);
    }
  }

  lemma SyncEntry(c: Config, w: World, src: Object, dst: Option<Object>, f: set<Call>)
    requires c.mutator.None?
    ensures EntryFrom(w.state, Sync(c, w, src, dst, f).world.state, src)
  {
    if dst.None? {
      SnapshotLabels(c, src, src);
      EnsureDestinationState(c, w, src, f);
    } else {
      SnapshotLabels(c, src, dst.value);
      SyncSpecState(c, w, src, dst.value, dst.value, f);
      SyncContentsKeeps(c, w, src, src, dst.value, dst.value, f);
    }
  }

  lemma SyncPrimaryEntry(st: Setup, k: Key, sys: Sys, v: View, f: set<Call>)
    ensures EntryFrom(Lookup(sys.state, EntryKey(k)), Lookup(SyncPrimary(st, k, sys, v, f).sys.state, EntryKey(k)), v.source)
  {
    var c := PrimaryConfig(st, k, v.source);
    var w := World(sys.primary, sys.dests, NamespacesOf(sys.namespaces, ""), Lookup(sys.state, EntryKey(k)));
    SyncEntry(c, w, v.source, v.copy, f);
  }

  lemma FinishEntry(st: Setup, k: Key, sys: Sys, v: View, ch: Chance)
    requires Apart(ch, k)
    ensures EntryFrom(Lookup(sys.state, EntryKey(k)), Lookup(Finish(st, k, sys, v, ch).sys.state, EntryKey(k)), v.source)
  {
    RunRulesEntry(st, k, sys, v.source, ch.down, true);
    var down := Teardown(st, k, sys, v, ch);
    SyncPrimaryEntry(st, k, down.sys, v, ch.faults);
    RunRulesEntry(st, k, SyncPrimary(st, k, down.sys, v, ch.faults).sys, v.source, ch.up, false);
  }

  // ---------------------------------------------------------------- the discipline over a run

  function Entry(m: Machine, k: Key): Option<Blob> {
    if k in m.state then Lookup(m.state[k], EntryKey(k)) else None
  }

  predicate EntryLabelled(b: Option<Blob>) {
    b.Some? && b.value.Known? && b.value.last.labels != map[]
  }

  /** What is labelled -- entry, source or running call -- is only followed by what is labelled. */
  predicate LabelInv(m: Machine, steps: seq<Step>, i: nat, k: Key) {
    && (EntryLabelled(Entry(m, k)) ==>
          && Onward(steps, i, k)
          && (k in m.kcp ==> Labelled(m.kcp[k])) && (k in m.running ==> Labelled(m.running[k].source)))
    && (k in m.kcp && Labelled(m.kcp[k]) ==> Onward(steps, i, k))
    && (k in m.running && Labelled(m.running[k].source) ==> Onward(steps, i, k) && (k in m.kcp ==> Labelled(m.kcp[k])))
  }

  lemma OnwardShrinks(steps: seq<Step>, i: nat, k: Key)
    ensures Onward(steps, i, k) ==> Onward(steps, i + 1, k)
  {
  }

  lemma CommitKeepsLabelInv(st: Setup, m: Machine, steps: seq<Step>, i: nat, k: Key, o: SysOutcome, x: Key)
    requires LabelInv(m, steps, i, x) && k in m.running
    requires SourceKept(SysOf(m, k).primary, o.sys.primary, true)
    requires k == x ==> EntryFrom(Entry(m, k), Lookup(o.sys.state, EntryKey(k)), m.running[k].source)
    ensures LabelInv(AfterFinish(st, m, k, o), steps, i + 1, x)
  {
    OnwardShrinks(steps, i, x);
    var m' := AfterFinish(st, m, k, o);
    assert x != k ==> Lookup(m'.kcp, x) == Lookup(m.kcp, x);
    assert x == k && x in m'.kcp ==> x in m.kcp && m'.kcp[x].labels == m.kcp[x].labels;
  }

  lemma OthersKeepLabelInv(m: Machine, m': Machine, steps: seq<Step>, i: nat, k: Key)
    requires LabelInv(m, steps, i, k)
    requires m'.state == m.state && Lookup(m'.kcp, k) == Lookup(m.kcp, k)
    requires k in m'.running ==> k in m.running && m'.running[k] == m.running[k]
    ensures LabelInv(m', steps, i + 1, k)
  {
    OnwardShrinks(steps, i, k);
    assert k in m'.kcp ==> k in m.kcp && m'.kcp[k] == m.kcp[k];
  }

  lemma BeginKeepsLabelInv(m: Machine, steps: seq<Step>, i: nat, k: Key, v: View)
    requires LabelInv(m, steps, i, k) && k in m.kcp && v.source == m.kcp[k]
    ensures LabelInv(m.(running := m.running[k := v]), steps, i + 1, k)
  {
    OnwardShrinks(steps, i, k);
  }

  lemma WriteKeepsLabelInv(m: Machine, steps: seq<Step>, i: nat, k: Key, source: Option<Object>)
    requires i < |steps| && steps[i] == EnvSource(k, source)
    requires StaysLabelled(steps, k) && LabelInv(m, steps, i, k)
    ensures LabelInv(m.(kcp := Store(m.kcp, k, source)), steps, i + 1, k)
  {
    OnwardShrinks(steps, i, k);
    assert source.Some? ==> Writes(steps[i], k);
  }

  /** Steps other than commits touch no state; they change the source or the call only by name. */
  lemma EnvEffect(st: Setup, m: Machine, step: Step, k: Key)
    requires Allowed(st, m, step) && !step.Commit?
    ensures var m' := After(st, m, step);
            && m'.state == m.state
            && (!(step.EnvSource? && step.k == k) ==> Lookup(m'.kcp, k) == Lookup(m.kcp, k))
            && (!(step.Begin? && step.k == k) && k in m'.running ==> k in m.running && m'.running[k] == m.running[k])
            && (step.EnvSource? && step.k == k ==> m' == m.(kcp := Store(m.kcp, k, step.source)))
            && (step.Begin? && step.k == k ==>
                  k in m.kcp && k in m'.running && m'.running[k].source == m.kcp[k] && m' == m.(running := m.running[k := m'.running[k]]))
  {
    match step
    case EnvSource(x, source) =>
    case EnvService(id, copy) =>
    case EnvPlace(place, objects) =>
    case EnvNamespaces(ns) =>
    case Begin(x) =>
    case Abort(x) =>
  }

  lemma EnvKeepsLabelInv(m: Machine, step: Step, m': Machine, steps: seq<Step>, i: nat, k: Key)
    requires i < |steps| && step == steps[i]
    requires StaysLabelled(steps, k) && LabelInv(m, steps, i, k)
    requires m'.state == m.state
    requires !(step.EnvSource? && step.k == k) ==> Lookup(m'.kcp, k) == Lookup(m.kcp, k)
    requires !(step.Begin? && step.k == k) && k in m'.running ==> k in m.running && m'.running[k] == m.running[k]
    requires step.EnvSource? && step.k == k ==> m' == m.(kcp := Store(m.kcp, k, step.source))
    requires step.Begin? && step.k == k ==>
               k in m.kcp && k in m'.running && m'.running[k].source == m.kcp[k] && m' == m.(running := m.running[k := m'.running[k]])
    ensures LabelInv(m', steps, i + 1, k)
  {
    if step.EnvSource? && step.k == k {
      WriteKeepsLabelInv(m, steps, i, k, step.source);
    } else if step.Begin? && step.k == k {
      BeginKeepsLabelInv(m, steps, i, k, m'.running[k]);
    } else {
      OthersKeepLabelInv(m, m', steps, i, k);
    }
  }

  lemma {:induction false} LabelInvInRuns(st: Setup, trace: seq<Machine>, steps: seq<Step>, i: nat, k: Key)
    requires ValidSetup(st) && IsRun(st, trace, steps) && i < |trace|
    requires StaysLabelled(steps, k) && StateApart(steps, k)
    ensures LabelInv(trace[i], steps, i, k)
    decreases i
  {
    if i > 0 {
      var j, m, step := i - 1, trace[i - 1], steps[i - 1];
      LabelInvInRuns(st, trace, steps, j, k);
      if step.Commit? {
        CommitLabels(st, trace, steps, j);
        if step.k == k {
          FinishEntry(st, k, SysOf(m, k), m.running[k], step.chance);
        }
        CommitKeepsLabelInv(st, m, steps, j, step.k, Finish(st, step.k, SysOf(m, step.k), m.running[step.k], step.chance), k);
      } else {
        EnvEffect(st, m, step, k);
        EnvKeepsLabelInv(m, step, trace[i], steps, j, k);
      }
    }
  }

  /** A commit leaves the labels of its source alone. */
  lemma CommitLabels(st: Setup, trace: seq<Machine>, steps: seq<Step>, j: nat)
    requires ValidSetup(st) && IsRun(st, trace, steps) && j < |steps| && steps[j].Commit?
    ensures var m, k := trace[j], steps[j].k;
            SourceKept(SysOf(m, k).primary, Finish(st, k, SysOf(m, k), m.running[k], steps[j].chance).sys.primary, true)
  {
    InvInRuns(st, trace, steps, j);
    var seen := Sighted(trace[j], Lost(st, trace, steps, j));
    SightedAllowed(st, trace[j], Lost(st, trace, steps, j), steps[j]);
    CommitEnds(st, seen, steps[j].k, steps[j].chance);
  }

  lemma NeverDropsAt(m: Machine, steps: seq<Step>, i: nat, step: Step, k: Key)
    requires LabelInv(m, steps, i, k)
    ensures !DropsAt(m, step, k)
  {
  }

  /**
   The copies of a source whose syncable labels never go from some to none are never orphaned, whatever
   happens to other sources -- provided no related object shares the source's state entry.
   */
  lemma DisciplinedSourceProtected(st: Setup, trace: seq<Machine>, steps: seq<Step>, i: nat, id: NsName)
    requires ValidSetup(st) && IsRun(st, trace, steps) && i < |trace|
    requires id in trace[i].placed
    requires StaysLabelled(steps, trace[i].placed[id]) && StateApart(steps, trace[i].placed[id])
    ensures Protected(trace[i], trace[i].placed[id])
  {
    var k := trace[i].placed[id];
    NoOrphansInRuns(st, trace, steps, i, id);
    forall j | 0 <= j < i
      ensures !DropsAt(trace[j], steps[j], k)
    {
      LabelInvInRuns(st, trace, steps, j, k);
      NeverDropsAt(trace[j], steps, j, steps[j], k);
    }
    NeverDropped(st, trace, steps, i, k);
  }

  // ---------------------------------------------------------------- always labelled

  predicate SourceLabelled(m: Machine, k: Key) {
    (k in m.kcp ==> Labelled(m.kcp[k])) && (k in m.running ==> Labelled(m.running[k].source))
  }

  lemma CommitKeepsLabelled(st: Setup, m: Machine, k: Key, o: SysOutcome, x: Key)
    requires SourceLabelled(m, x) && SourceKept(SysOf(m, k).primary, o.sys.primary, true)
    ensures SourceLabelled(AfterFinish(st, m, k, o), x)
  {
    var m' := AfterFinish(st, m, k, o);
    assert x != k ==> Lookup(m'.kcp, x) == Lookup(m.kcp, x);
    assert x == k && x in m'.kcp ==> x in m.kcp && m'.kcp[x].labels == m.kcp[x].labels;
  }

  lemma {:induction false} LabelledInRuns(st: Setup, trace: seq<Machine>, steps: seq<Step>, i: nat, k: Key)
    requires ValidSetup(st) && IsRun(st, trace, steps) && i < |trace| && Onward(steps, 0, k)
    ensures SourceLabelled(trace[i], k)
    decreases i
  {
    if i > 0 {
      var j, m, step := i - 1, trace[i - 1], steps[i - 1];
      LabelledInRuns(st, trace, steps, j, k);
      if step.Commit? {
        CommitLabels(st, trace, steps, j);
        CommitKeepsLabelled(st, m, step.k, Finish(st, step.k, SysOf(m, step.k), m.running[step.k], step.chance), k);
      } else {
        EnvEffect(st, m, step, k);
        assert Writes(step, k) ==> Labelled(step.source.value);
        assert k in trace[i].kcp && !step.EnvSource? ==> Lookup(trace[i].kcp, k) == Lookup(m.kcp, k);
      }
    }
  }

  /** A source that is always labelled needs no further condition. */
  lemma LabelledSourceProtected(st: Setup, trace: seq<Machine>, steps: seq<Step>, i: nat, id: NsName)
    requires ValidSetup(st) && IsRun(st, trace, steps) && i < |trace|
    requires id in trace[i].placed && Onward(steps, 0, trace[i].placed[id])
    ensures Protected(trace[i], trace[i].placed[id])
  {
    var k := trace[i].placed[id];
    NoOrphansInRuns(st, trace, steps, i, id);
    forall j | 0 <= j < i
      ensures !DropsAt(trace[j], steps[j], k)
    {
      LabelledInRuns(st, trace, steps, j, k);
    }
    NeverDropped(st, trace, steps, i, k);
  }
}
