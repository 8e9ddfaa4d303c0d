/**
 The agent at work on many primary objects at once. Each Process call reads, and later writes, with
 steps of users, service admins and other Process calls in between.
 */
module Lifecycle {
  import opened Options
  import opened MergePatches
  import opened Objects
  import opened ObjectSync
  import opened Convergence
  import opened Related

  /** A primary object in kcp: its logical cluster, namespace and name. */
  datatype Key = Key(cluster: string, id: NsName)

  /**
   `naming` gives the name of the copy on the service cluster; `sourceOf` is its inverse, so that no
   two sources are mapped to one name.
   */
  datatype Setup = Setup(
    agent: Agent,
    namespaced: bool,
    paths: string -> string,
    naming: Key -> NsName,
    sourceOf: NsName -> Key,
    subresources: set<string>,
    apiVersion: string,
    kind: string,
    rules: seq<Rule>)

  /** Where related objects of one kind live. */
  datatype Place = InKcp(cluster: string, kind: string) | InService(kind: string)

  /** What a Process call has read when it starts. */
  datatype View = View(source: Object, copy: Option<Object>)

  /**
   `running` are the Process calls that have read but not yet written. `placed` says for which
   source the agent has put (or taken over) a copy; `torn` are the primaries whose copy the agent
   has since deleted.
   */
  datatype Machine = Machine(
    kcp: map<Key, Object>,
    service: map<NsName, Object>,
    namespaces: map<string, set<string>>,
    state: map<Key, map<StateKey, Blob>>,
    places: map<Place, map<NsName, Object>>,
    running: map<Key, View>,
    placed: map<NsName, Key>,
    torn: set<Key>)

  // ---------------------------------------------------------------- assumptions on the setup

  predicate ValidKey(st: Setup, k: Key) {
    && (k.id.namespace != "" <==> st.namespaced)
    && NulFree(k.cluster) && NulFree(k.id.namespace) && NulFree(k.id.name)
  }

  ghost predicate ValidSetup(st: Setup) {
    && Injective(st.agent.hash)
    && NulFree(st.agent.publishedResource)
    && (forall k {:trigger st.naming(k)} | ValidKey(st, k) :: st.sourceOf(st.naming(k)) == k)
    && (forall r | r in st.rules :: ContentOnly(r.mutator))
  }

  // ---------------------------------------------------------------- the configuration of a call

  function DeletionPolicy(o: Object): Policy {
    var v := Read(o.annotations, "syncagent.kcp.io/deletion-propagation-policy");
    if v == "foreground" then Foreground else if v == "orphan" then OrphanDependents else Background
  }

  function PrimaryConfig(st: Setup, k: Key, src: Object): Config {
    Config(
      hash := st.agent.hash, cluster := k.cluster, path := st.paths(k.cluster), agentName := st.agent.agentName,
      subresources := st.subresources, statusBack := true, statusForward := false,
      blockDeletion := true, linkDest := true, destLabels := map[], destAnnotations := map[],
      mutator := None, forceDelete := false, policy := DeletionPolicy(src),
      destId := st.naming(k), destApiVersion := st.apiVersion, destKind := st.kind,
      destHasStatus := "status" in st.subresources, admit := st.agent.admit)
  }

  function SelectorOf(st: Setup, k: Key): map<string, string> {
    KeyLabels(st.agent.hash, ObjectKey(k.cluster, st.paths(k.cluster), k.id))
  }

  function EntryKey(k: Key): StateKey {
    StateKey(k.cluster, k.id)
  }

  function Get<K, V>(m: map<K, map<V, Object>>, k: K): map<V, Object> {
    if k in m then m[k] else map[]
  }

  function OriginPlace(k: Key, r: Rule): Place {
    if r.origin.KcpOrigin? then InKcp(k.cluster, r.originKind) else InService(r.originKind)
  }

  function DestPlace(k: Key, r: Rule): Place {
    if r.origin.KcpOrigin? then InService(r.destKind) else InKcp(k.cluster, r.destKind)
  }

  function DestCluster(k: Key, r: Rule): string {
    if r.origin.KcpOrigin? then "" else k.cluster
  }

  function NamespacesOf(m: map<string, set<string>>, cluster: string): set<string> {
    if cluster in m then m[cluster] else {}
  }

  // ---------------------------------------------------------------- one Process call

  /** The part of the machine that one Process call works on. */
  datatype Sys = Sys(
    primary: Option<Object>,
    dests: map<NsName, Object>,
    namespaces: map<string, set<string>>,
    state: map<StateKey, Blob>,
    places: map<Place, map<NsName, Object>>)

  /** `log` lists the writes made on behalf of the primary object itself. */
  datatype SysOutcome = SysOutcome(sys: Sys, log: seq<Call>, result: Result)

  function RuleWorld(k: Key, r: Rule, sys: Sys): RelWorld {
    RelWorld(sys.primary, Get(sys.places, OriginPlace(k, r)), Get(sys.places, DestPlace(k, r)),
             NamespacesOf(sys.namespaces, DestCluster(k, r)), sys.state)
  }

  function AfterRule(k: Key, r: Rule, sys: Sys, w: RelWorld): Sys {
    sys.(primary := w.primary,
    places := sys.places[OriginPlace(k, r) := w.origins][DestPlace(k, r) := w.copies],
    namespaces := sys.namespaces[DestCluster(k, r) := w.namespaces],
    state := w.state)
  }

  function RunRule(st: Setup, k: Key, sys: Sys, view: Object, r: Rule, env: PassEnv, deleting: bool): SysOutcome {
    var o := ProcessRule(st.agent, r, k.cluster, view, RuleWorld(k, r, sys), env, deleting);
    SysOutcome(AfterRule(k, r, sys, o.world), [], o.result)
  }

  /** The rules in order; the first that does not complete ends the call. */
  function RunRules(st: Setup, k: Key, sys: Sys, view: Object, n: nat, envs: nat -> PassEnv, deleting: bool): SysOutcome
    requires n <= |st.rules|
  {
    if n == 0 then SysOutcome(sys, [], Done)
    else
      var before := RunRules(st, k, sys, view, n - 1, envs, deleting);
      if !before.result.Done? then before
      else RunRule(st, k, before.sys, view, st.rules[n - 1], envs(n - 1), deleting)
  }

  function OrElse(o: SysOutcome, next: SysOutcome): SysOutcome {
    if o.result.Done? then next else o
  }

  /** Induction over the rules of a call: what holds at the start and is kept by each rule holds at the end. */
  lemma {:induction false} RunRulesInduction(
    st: Setup, k: Key, sys: Sys, view: Object, n: nat, envs: nat -> PassEnv, deleting: bool, P: (nat, SysOutcome) -> bool)
    requires n <= |st.rules|
    requires P(0, SysOutcome(sys, [], Done))
    requires forall i: nat, o | i < n && P(i, o) ::
               P(i + 1, OrElse(o, RunRule(st, k, o.sys, view, st.rules[i], envs(i), deleting)))
    ensures P(n, RunRules(st, k, sys, view, n, envs, deleting))
  {
    if n > 0 {
      RunRulesInduction(st, k, sys, view, n - 1, envs, deleting, P);
      var o := RunRules(st, k, sys, view, n - 1, envs, deleting);
      var i: nat := n - 1;
      assert P(i, o);
      assert P(i + 1, OrElse(o, RunRule(st, k, o.sys, view, st.rules[i], envs(i), deleting)));
    }
  }

  function SyncPrimary(st: Setup, k: Key, sys: Sys, v: View, f: set<Call>): SysOutcome {
    var w := World(sys.primary, sys.dests, NamespacesOf(sys.namespaces, ""), Lookup(sys.state, EntryKey(k)));
    var o := Sync(PrimaryConfig(st, k, v.source), w, v.source, v.copy, f);
    SysOutcome(
      sys.(primary := o.world.source, dests := o.world.dests, namespaces := sys.namespaces["" := o.world.namespaces],
      state := Store(sys.state, EntryKey(k), o.world.state)),
      o.log, o.result)
  }

  /** After a rule, its two places hold what its pass left there. */
  lemma AfterRuleReads(k: Key, r: Rule, sys: Sys, w: RelWorld, p: Place)
    ensures Get(AfterRule(k, r, sys, w).places, p)
            == if p == DestPlace(k, r) then w.copies else if p == OriginPlace(k, r) then w.origins else Get(sys.places, p)
  {
  }

  lemma SyncPrimaryKeepsPlaces(st: Setup, k: Key, sys: Sys, v: View, f: set<Call>)
    ensures SyncPrimary(st, k, sys, v, f).sys.places == sys.places
  {
  }

  /** What may go wrong or be read stale in one Process call: faults, and one environment per pass. */
  datatype Chance = Chance(faults: set<Call>, down: nat -> PassEnv, up: nat -> PassEnv)

  function Teardown(st: Setup, k: Key, sys: Sys, v: View, ch: Chance): SysOutcome {
    if v.source.deleting && v.copy.Some? then RunRules(st, k, sys, v.source, |st.rules|, ch.down, true)
    else SysOutcome(sys, [], Done)
  }

  /** The primary's synchronization and, once it is complete, the rules. */
  function FinishMain(st: Setup, k: Key, sys: Sys, v: View, ch: Chance): SysOutcome {
    var main := SyncPrimary(st, k, sys, v, ch.faults);
    if !main.result.Done? || v.copy.None? then main
    else
      var up := RunRules(st, k, main.sys, v.source, |st.rules|, ch.up, false);
      up.(log := main.log)
  }

  /** The writing half of a Process call. */
  function Finish(st: Setup, k: Key, sys: Sys, v: View, ch: Chance): SysOutcome {
    var down := Teardown(st, k, sys, v, ch);
    if !down.result.Done? then down else FinishMain(st, k, down.sys, v, ch)
  }

  // ---------------------------------------------------------------- steps

  datatype Step =
    | EnvSource(k: Key, source: Option<Object>)       // a user creates, edits, deletes or releases a source
    | EnvService(id: NsName, copy: Option<Object>)    // anything but the agent on the service cluster
    | EnvPlace(place: Place, objects: map<NsName, Object>)
    | EnvNamespaces(namespaces: map<string, set<string>>)
    | Begin(k: Key)
    | Commit(k: Key, chance: Chance)
    | Abort(k: Key)

  function SysOf(m: Machine, k: Key): Sys {
    Sys(Lookup(m.kcp, k), m.service, m.namespaces, if k in m.state then m.state[k] else map[], m.places)
  }

  predicate Placing(log: seq<Call>) {
    CreateDest in log || AdoptDest in log
  }

  function PlacedAfter(st: Setup, m: Machine, k: Key, o: SysOutcome): map<NsName, Key> {
    (map id | id in m.placed && id in o.sys.dests :: m.placed[id])
    + if Placing(o.log) then map[st.naming(k) := k] else map[]
  }

  function TornAfter(m: Machine, k: Key, log: seq<Call>): set<Key> {
    if DeleteDest in log then m.torn + {k} else if Placing(log) then m.torn - {k} else m.torn
  }

  function AfterFinish(st: Setup, m: Machine, k: Key, o: SysOutcome): Machine {
    m.(kcp := Store(m.kcp, k, o.sys.primary), service := o.sys.dests, namespaces := o.sys.namespaces,
    state := m.state[k := o.sys.state], places := o.sys.places, running := m.running - {k},
    placed := PlacedAfter(st, m, k, o), torn := TornAfter(m, k, o.log))
  }

  function AfterCommit(st: Setup, m: Machine, k: Key, ch: Chance): Machine
    requires k in m.running
  {
    AfterFinish(st, m, k, Finish(st, k, SysOf(m, k), m.running[k], ch))
  }

  /** API servers keep objects under their own names. */
  predicate StoredUnderId(objects: map<NsName, Object>) {
    forall id | id in objects :: objects[id].id == id
  }

  /** Provenance labels are only ever put on objects by the agent. */
  predicate Unforged(o: Object) {
    o.labels.Keys !! {OWNER_LABEL, IDENTIFIER_LABEL, AGENT_LABEL}
  }

  /** Everything but the agent leaves cleanup finalizers, links and provenance labels alone. */
  ghost predicate Allowed(st: Setup, m: Machine, step: Step) {
    match step
    case EnvSource(k, source) =>
      && ValidKey(st, k)
      && (source.Some? ==> source.value.id == k.id && WellFormed(source.value))
      && (k in m.kcp && FINALIZER in m.kcp[k].finalizers ==>
            source.Some? && FINALIZER in source.value.finalizers && (m.kcp[k].deleting ==> source.value.deleting))
    case EnvService(id, copy) =>
      copy.Some? ==>
        && copy.value.id == id
        && (forall k {:trigger SelectorOf(st, k)} | ValidKey(st, k) ::
              Matches(copy.value.labels, SelectorOf(st, k)) <==>
              id in m.service && Matches(m.service[id].labels, SelectorOf(st, k)))
    case EnvPlace(place, objects) =>
      && StoredUnderId(objects)
      && forall k, r | ValidKey(st, k) && r in st.rules ::
           Found(objects, RuleSelector(st, k, r)) <= Found(Get(m.places, place), RuleSelector(st, k, r))
    case EnvNamespaces(_) => true
    case Begin(k) => k in m.kcp && k !in m.running && |Found(m.service, SelectorOf(st, k))| <= 1
    case Commit(k, ch) =>
      && k in m.running
      && forall i: nat :: forall t | t in ch.down(i).attempts + ch.up(i).attempts :: Unforged(t.original) && WellFormed(t.original)
    case Abort(k) => true
  }

  function RuleSelector(st: Setup, k: Key, r: Rule): map<string, string> {
    CopyLabels(st.agent, k.cluster, k.id, r.identifier)
  }

  ghost function After(st: Setup, m: Machine, step: Step): Machine
    requires Allowed(st, m, step)
  {
    match step
    case EnvSource(k, source) => m.(kcp := Store(m.kcp, k, source))
    case EnvService(id, copy) =>
      m.(service := Store(m.service, id, copy), placed := if copy.None? then m.placed - {id} else m.placed)
    case EnvPlace(place, objects) => m.(places := m.places[place := objects])
    case EnvNamespaces(ns) => m.(namespaces := ns)
    case Begin(k) =>
      var found := Found(m.service, SelectorOf(st, k));
      m.(running := m.running[k := View(m.kcp[k], if found == {} then None else Some(m.service[Pick(found)]))])
    case Commit(k, ch) => AfterCommit(st, m, k, ch)
    case Abort(k) => m.(running := m.running - {k})
  }

  const EMPTY := Machine(map[], map[], map[], map[], map[], map[], map[], {})

  // ---------------------------------------------------------------- invariant

  predicate Protected(m: Machine, k: Key) {
    k in m.kcp && FINALIZER in m.kcp[k].finalizers
  }

  /** Every copy the agent has placed still has its source, held back by the cleanup finalizer. */
  predicate NoOrphans(m: Machine) {
    forall id | id in m.placed :: Protected(m, m.placed[id])
  }

  predicate KeysOk(st: Setup, m: Machine) {
    && (forall k | k in m.kcp :: ValidKey(st, k) && m.kcp[k].id == k.id && WellFormed(m.kcp[k]))
    && (forall id | id in m.service :: m.service[id].id == id)
    && (forall k | k in m.running :: ValidKey(st, k) && m.running[k].source.id == k.id && WellFormed(m.running[k].source))
  }

  /** Whatever a source's selector finds was placed for that source, under the name it maps to. */
  ghost predicate MatchesOk(st: Setup, m: Machine) {
    forall id, k {:trigger Matches(m.service[id].labels, SelectorOf(st, k))}
      | id in m.service && ValidKey(st, k) && Matches(m.service[id].labels, SelectorOf(st, k)) ::
      id == st.naming(k) && id in m.placed && m.placed[id] == k
  }

  /** Every placed copy is found by the source it was placed for. */
  predicate PlacedOk(st: Setup, m: Machine) {
    forall id | id in m.placed ::
      && ValidKey(st, m.placed[id])
      && id in m.service && Matches(m.service[id].labels, SelectorOf(st, m.placed[id]))
  }

  ghost predicate LinksOk(st: Setup, m: Machine) {
    MatchesOk(st, m) && PlacedOk(st, m)
  }

  /** What a running call has read about its copy and its source can still be relied on. */
  predicate ViewOk(st: Setup, m: Machine, k: Key, v: View) {
    && (FINALIZER in v.source.finalizers ==> Protected(m, k) && (v.source.deleting ==> m.kcp[k].deleting))
    && (v.copy.None? ==> forall id | id in m.placed :: m.placed[id] != k)
    && (v.copy.Some? ==>
          && v.copy.value.id == st.naming(k)
          && Matches(v.copy.value.labels, SelectorOf(st, k))
          && FINALIZER in v.source.finalizers)
  }

  /** Every entry remembers an object of the name it is stored under. */
  predicate StateOk(state: map<StateKey, Blob>) {
    forall e | e in state :: BlobOk(Some(state[e]), e.id)
  }

  ghost predicate Inv(st: Setup, m: Machine) {
    && KeysOk(st, m)
    && LinksOk(st, m)
    && NoOrphans(m)
    && (forall k | k in m.running :: ViewOk(st, m, k, m.running[k]))
    && (forall k | k in m.state :: StateOk(m.state[k]))
  }
}
