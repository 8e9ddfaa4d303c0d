/**
 Related resources: the pass over all objects a related-resource rule resolves to, the bookkeeping on
 the primary, and the pruning of copies that no longer have an origin.
 */
module Related {
  import opened Options
  import opened MergePatches
  import opened Objects
  import opened ObjectSync
  import opened Convergence

  const OWNER_LABEL := "syncagent.kcp.io/related-owner"
  const IDENTIFIER_LABEL := "syncagent.kcp.io/related-identifier"
  const PRIMARY_NAMESPACE_ANNOTATION := "syncagent.kcp.io/related-primary-namespace"
  const PRIMARY_NAME_ANNOTATION := "syncagent.kcp.io/related-primary-name"

  datatype Origin = ServiceOrigin | KcpOrigin
  datatype Cleanup = OrphanCopies | OnPrimaryDeletion | MatchOrigin

  /** One related-resource rule of a published resource, with all templates already rendered. */
  datatype Rule = Rule(
    identifier: string,
    origin: Origin,
    cleanup: Cleanup,
    syncStatus: bool,
    originKind: string,
    destApiVersion: string,
    destKind: string,
    destHasStatus: bool,
    mutator: Option<Mutator>)

  /** What all passes for one primary share. */
  datatype Agent = Agent(
    hash: Hash,
    agentName: string,
    publishedResource: string,
    admit: map<string, Json> -> map<string, Json>)

  /** Entries of the state store are told apart by cluster, namespace and name. */
  datatype StateKey = StateKey(cluster: string, id: NsName)

  /** The servers as one rule sees them: the primary, the origin objects and the copies. */
  datatype RelWorld = RelWorld(
    primary: Option<Object>,
    origins: map<NsName, Object>,
    copies: map<NsName, Object>,
    namespaces: set<string>,
    state: map<StateKey, Blob>)

  /**
   One resolved origin object as read (possibly from a stale cache), where its copy belongs, and
   which calls fail. `blind` says that reading the copy fails, which counts as "no copy".
   */
  datatype Attempt = Attempt(original: Object, destination: NsName, policy: Policy, blind: bool, faults: set<Call>)

  /** What an uncached read says about an empty resolution. */
  datatype Live = NoReader | LiveError | LiveEmpty | LiveFound

  /**
   What a pass meets: the objects resolved (unless the resolution fails) and what a live read says.
   `pruneStop`: when given, pruning fails after having deleted just these copies.
   */
  datatype PassEnv = PassEnv(unresolved: bool, attempts: seq<Attempt>, live: Live, rememberFails: bool, pruneStop: Option<set<NsName>>)

  /** `pruned` are the copies whose deletion the prune requested. */
  datatype RelOutcome = RelOutcome(world: RelWorld, result: Result, pruned: set<NsName>)

  // ---------------------------------------------------------------- provenance

  const NUL: string := "\0"

  /** The owner tuple, joined with NUL so that the parts stay apart. */
  function OwnerTuple(cluster: string, publishedResource: string, primary: NsName): string {
    cluster + NUL + publishedResource + NUL + primary.namespace + NUL + primary.name
  }

  function CopyLabels(a: Agent, cluster: string, primary: NsName, identifier: string): map<string, string> {
    map[OWNER_LABEL := a.hash(OwnerTuple(cluster, a.publishedResource, primary)), IDENTIFIER_LABEL := identifier]
    + if a.agentName != "" then map[AGENT_LABEL := a.agentName] else map[]
  }

  function CopyAnnotations(primary: NsName): map<string, string> {
    map[PRIMARY_NAME_ANNOTATION := primary.name]
    + if primary.namespace != "" then map[PRIMARY_NAMESPACE_ANNOTATION := primary.namespace] else map[]
  }

  predicate NulFree(s: string) {
    '\0' !in s
  }

  /** A NUL-free prefix is determined by the first NUL. */
  lemma FirstNul(a: string, x: string, b: string, y: string)
    requires NulFree(a) && NulFree(b) && a + NUL + x == b + NUL + y
    ensures a == b && x == y
  {
    var s := a + NUL + x;
    assert s == b + NUL + y;
    assert s[|a|] == '\0' && s[|b|] == '\0';
    assert s[..|a|] == a && s[..|b|] == b;
    assert s[|a| + 1..] == x && s[|b| + 1..] == y;
  }

  /** Distinct owners have distinct tuples. */
  lemma OwnerTupleInjective(c1: string, p1: string, o1: NsName, c2: string, p2: string, o2: NsName)
    requires NulFree(c1) && NulFree(p1) && NulFree(o1.namespace)
    requires NulFree(c2) && NulFree(p2) && NulFree(o2.namespace)
    requires OwnerTuple(c1, p1, o1) == OwnerTuple(c2, p2, o2)
    ensures c1 == c2 && p1 == p2 && o1 == o2
  {
    var x1, x2 := o1.namespace + NUL + o1.name, o2.namespace + NUL + o2.name;
    var y1, y2 := p1 + NUL + x1, p2 + NUL + x2;
    assert OwnerTuple(c1, p1, o1) == c1 + NUL + y1 && OwnerTuple(c2, p2, o2) == c2 + NUL + y2;
    FirstNul(c1, y1, c2, y2);
    FirstNul(p1, x1, p2, x2);
    FirstNul(o1.namespace, o1.name, o2.namespace, o2.name);
  }

  predicate NulFreeOwner(cluster: string, publishedResource: string, primary: NsName) {
    NulFree(cluster) && NulFree(publishedResource) && NulFree(primary.namespace)
  }

  /**
   Whatever other labels a copy carries: it is selected for two owners and rules only if they are one and
   the same, and by two agents that both have a name only if it is the same name.
   */
  lemma SelectedByOne(labels: map<string, string>, a1: Agent, c1: string, o1: NsName, i1: string, a2: Agent, c2: string, o2: NsName, i2: string)
    requires a1.hash == a2.hash && Injective(a1.hash)
    requires NulFreeOwner(c1, a1.publishedResource, o1) && NulFreeOwner(c2, a2.publishedResource, o2)
    requires Matches(labels, CopyLabels(a1, c1, o1, i1)) && Matches(labels, CopyLabels(a2, c2, o2, i2))
    ensures c1 == c2 && a1.publishedResource == a2.publishedResource && o1 == o2 && i1 == i2
    ensures a1.agentName == "" || a2.agentName == "" || a1.agentName == a2.agentName
  {
    var l1, l2 := CopyLabels(a1, c1, o1, i1), CopyLabels(a2, c2, o2, i2);
    assert OWNER_LABEL in l1 && OWNER_LABEL in l2 && IDENTIFIER_LABEL in l1 && IDENTIFIER_LABEL in l2;
    assert labels[OWNER_LABEL] == l1[OWNER_LABEL] == l2[OWNER_LABEL];
    OwnerTupleInjective(c1, a1.publishedResource, o1, c2, a2.publishedResource, o2);
    assert labels[IDENTIFIER_LABEL] == l1[IDENTIFIER_LABEL] == l2[IDENTIFIER_LABEL];
    assert a1.agentName != "" ==> AGENT_LABEL in l1;
    assert a2.agentName != "" ==> AGENT_LABEL in l2;
  }

  /**
   A copy as it is stamped for one owner, rule and agent is selected by exactly that owner and rule, and
   by that agent or an agent without a name.
   */
  lemma ProvenanceIsolation(a1: Agent, c1: string, o1: NsName, i1: string, a2: Agent, c2: string, o2: NsName, i2: string)
    requires a1.hash == a2.hash && Injective(a1.hash)
    requires NulFreeOwner(c1, a1.publishedResource, o1) && NulFreeOwner(c2, a2.publishedResource, o2)
    ensures Matches(CopyLabels(a1, c1, o1, i1), CopyLabels(a2, c2, o2, i2))
            <==> (c1 == c2 && a1.publishedResource == a2.publishedResource && o1 == o2 && i1 == i2
                  && (a2.agentName == "" || a1.agentName == a2.agentName))
  {
    var l1, l2 := CopyLabels(a1, c1, o1, i1), CopyLabels(a2, c2, o2, i2);
    assert a2.agentName != "" ==> AGENT_LABEL in l2;
    if Matches(l1, l2) {
      SelectedByOne(l1, a1, c1, o1, i1, a2, c2, o2, i2);
    }
  }

  // ---------------------------------------------------------------- synchronizing one object

  /** Copies are removed with the primary when the rule says so, or when they belong to the user. */
  predicate ForceDelete(r: Rule, deleting: bool) {
    deleting && (r.cleanup.OnPrimaryDeletion? || r.cleanup.MatchOrigin? || r.origin.KcpOrigin?)
  }

  function OriginCluster(r: Rule, cluster: string): string {
    if r.origin.KcpOrigin? then cluster else ""
  }

  function PassConfig(a: Agent, r: Rule, cluster: string, primary: NsName, t: Attempt, deleting: bool): Config {
    Config(
      hash := a.hash, cluster := OriginCluster(r, cluster), path := "", agentName := "",
      subresources := if r.syncStatus then {"status"} else {},
      statusBack := false, statusForward := r.syncStatus,
      blockDeletion := ForceDelete(r, deleting) || r.origin.KcpOrigin?,
      linkDest := false,
      destLabels := CopyLabels(a, cluster, primary, r.identifier),
      destAnnotations := CopyAnnotations(primary),
      mutator := r.mutator, forceDelete := ForceDelete(r, deleting), policy := t.policy,
      destId := t.destination, destApiVersion := r.destApiVersion, destKind := r.destKind,
      destHasStatus := r.destHasStatus, admit := a.admit)
  }

  function Slot(w: RelWorld, key: StateKey): World {
    World(Lookup(w.origins, key.id), w.copies, w.namespaces, Lookup(w.state, key))
  }

  function Unslot(w: RelWorld, key: StateKey, s: World): RelWorld {
    w.(origins := Store(w.origins, key.id, s.source), copies := s.dests, namespaces := s.namespaces,
    state := Store(w.state, key, s.state))
  }

  /** The copy is fetched under the name it is asked for. */
  function CopyView(w: RelWorld, t: Attempt): Option<Object> {
    if t.blind || t.destination !in w.copies then None
    else Some(w.copies[t.destination].(id := t.destination))
  }

  function AttemptKey(r: Rule, cluster: string, t: Attempt): StateKey {
    StateKey(OriginCluster(r, cluster), t.original.id)
  }

  function SyncOne(a: Agent, r: Rule, cluster: string, primary: NsName, w: RelWorld, t: Attempt, deleting: bool): RelOutcome {
    var key := AttemptKey(r, cluster, t);
    var o := Sync(PassConfig(a, r, cluster, primary, t, deleting), Slot(w, key), t.original, CopyView(w, t), t.faults);
    RelOutcome(Unslot(w, key, o.world), o.result, {})
  }

  function Both(x: Result, y: Result): Result {
    if x.Failed? || y.Failed? then Failed else if x.Requeue? || y.Requeue? then Requeue else Done
  }

  /** All resolved objects are synchronized before a requeue is reported; an error ends the pass. */
  function SyncAll(a: Agent, r: Rule, cluster: string, primary: NsName, w: RelWorld, ts: seq<Attempt>, deleting: bool): RelOutcome {
    if ts == [] then RelOutcome(w, Done, {})
    else
      var before := SyncAll(a, r, cluster, primary, w, ts[..|ts|-1], deleting);
      if before.result.Failed? then RelOutcome(before.world, Failed, {})
      else
        var o := SyncOne(a, r, cluster, primary, before.world, ts[|ts|-1], deleting);
        o.(result := Both(before.result, o.result))
  }

  // ---------------------------------------------------------------- pruning

  function Kept(ts: seq<Attempt>): set<NsName> {
    set t | t in ts :: t.destination
  }

  /** The deletion policy requested for a copy by the last attempt that names it. */
  function PolicyFor(ts: seq<Attempt>, id: NsName): Policy {
    if ts == [] then Background
    else if ts[|ts|-1].destination == id then ts[|ts|-1].policy
    else PolicyFor(ts[..|ts|-1], id)
  }

  function DeleteCopies(copies: map<NsName, Object>, doomed: set<NsName>, ts: seq<Attempt>): map<NsName, Object> {
    map id | id in copies && (id in doomed ==> Deleted(copies[id], PolicyFor(ts, id)).Some?) ::
      if id in doomed then Deleted(copies[id], PolicyFor(ts, id)).value else copies[id]
  }

  /** The labelled copies that are not to be kept. */
  function Stale(copies: map<NsName, Object>, selector: map<string, string>, keep: set<NsName>): set<NsName> {
    Found(copies, selector) - keep
  }

  /** Copies already being deleted are only waited for. */
  function Doomable(copies: map<NsName, Object>, ids: set<NsName>): set<NsName> {
    set id | id in ids && id in copies && !copies[id].deleting
  }

  function Prune(w: RelWorld, selector: map<string, string>, keep: set<NsName>, ts: seq<Attempt>, stop: Option<set<NsName>>): RelOutcome {
    var stale := Stale(w.copies, selector, keep);
    var doomed := Doomable(w.copies, stale);
    match stop
    case Some(done) => RelOutcome(w.(copies := DeleteCopies(w.copies, doomed * done, ts)), Failed, doomed * done)
    case None => RelOutcome(w.(copies := DeleteCopies(w.copies, doomed, ts)), if stale == {} then Done else Requeue, doomed)
  }

  // ---------------------------------------------------------------- remembering on the primary

  function Digits(n: nat): string
  {
    if n < 10 then ["0123456789"[n]] else Digits(n / 10) + ["0123456789"[n % 10]]
  }

  function AnnotationPrefix(identifier: string): string {
    RELATED_PREFIX + identifier + "."
  }

  /** The human-facing description of one copy; stands for its JSON encoding. */
  function Describe(t: Attempt): string {
    t.destination.namespace + "/" + t.destination.name + " " + t.original.apiVersion + " " + t.original.kind
  }

  function Desired(identifier: string, ts: seq<Attempt>): map<string, string> {
    if ts == [] then map[]
    else Desired(identifier, ts[..|ts|-1])[AnnotationPrefix(identifier) + Digits(|ts|-1) := Describe(ts[|ts|-1])]
  }

  /** The primary's annotations with this rule's entries replaced by the desired ones. */
  function Remembered(annotations: map<string, string>, identifier: string, ts: seq<Attempt>): map<string, string> {
    (map k | k in annotations && !(AnnotationPrefix(identifier) <= k) :: annotations[k]) + Desired(identifier, ts)
  }

  /** Nothing is written when nothing resolves or when the entries are already right. */
  function Remember(w: RelWorld, identifier: string, view: Object, ts: seq<Attempt>, fails: bool): RelOutcome {
    var next := Remembered(view.annotations, identifier, ts);
    if ts == [] || next == view.annotations then
      RelOutcome(w, Done, {})
    else if fails || w.primary.None? then
      RelOutcome(w, Failed, {})
    else
      var p := w.primary.value;
      RelOutcome(w.(primary := Some(p.(annotations := PatchMap(p.annotations, view.annotations, next)))), Requeue, {})
  }

  // ---------------------------------------------------------------- one pass for one rule

  function PruneStage(a: Agent, r: Rule, cluster: string, view: Object, w: RelWorld, env: PassEnv, deleting: bool): RelOutcome {
    var selector := CopyLabels(a, cluster, view.id, r.identifier);
    if deleting && (r.cleanup.OnPrimaryDeletion? || r.cleanup.MatchOrigin?) then
      Prune(w, selector, {}, env.attempts, env.pruneStop)
    else if !deleting && r.cleanup.MatchOrigin? then
      if env.attempts != [] || env.live.LiveEmpty? then
        Prune(w, selector, Kept(env.attempts), env.attempts, env.pruneStop)
      else
        RelOutcome(w, if env.live.NoReader? then Done else if env.live.LiveError? then Failed else Requeue, {})
    else
      RelOutcome(w, Done, {})
  }

  /** What follows once all resolved objects have been synchronized. */
  function Conclude(a: Agent, r: Rule, cluster: string, view: Object, synced: RelOutcome, env: PassEnv, deleting: bool): RelOutcome {
    if synced.result.Failed? then synced
    else
      var noted := if r.origin.ServiceOrigin? then Remember(synced.world, r.identifier, view, env.attempts, env.rememberFails)
                   else RelOutcome(synced.world, Done, {});
      if !noted.result.Done? then noted
      else
        var pruned := PruneStage(a, r, cluster, view, noted.world, env, deleting);
        pruned.(result := Both(synced.result, pruned.result))
  }

  /** Processes one rule for the primary as read. */
  function ProcessRule(a: Agent, r: Rule, cluster: string, view: Object, w: RelWorld, env: PassEnv, deleting: bool): RelOutcome {
    if env.unresolved then RelOutcome(w, Failed, {})
    else Conclude(a, r, cluster, view, SyncAll(a, r, cluster, view.id, w, env.attempts, deleting), env, deleting)
  }

  // ---------------------------------------------------------------- prune safety

  lemma SyncPrunesNothing(a: Agent, r: Rule, cluster: string, primary: NsName, w: RelWorld, ts: seq<Attempt>, deleting: bool)
    ensures SyncAll(a, r, cluster, primary, w, ts, deleting).pruned == {}
  {
  }

  lemma PruneHitsStale(w: RelWorld, selector: map<string, string>, keep: set<NsName>, ts: seq<Attempt>, stop: Option<set<NsName>>, id: NsName)
    requires id in Prune(w, selector, keep, ts, stop).pruned
    ensures id in w.copies && Matches(w.copies[id].labels, selector) && id !in keep
  {
  }

  /** What is pruned once all resolved objects have been synchronized. */
  lemma ConcludeSafety(a: Agent, r: Rule, cluster: string, view: Object, synced: RelOutcome, env: PassEnv, deleting: bool, id: NsName)
    requires synced.pruned == {} && id in Conclude(a, r, cluster, view, synced, env, deleting).pruned
    ensures id in synced.world.copies
    ensures Matches(synced.world.copies[id].labels, CopyLabels(a, cluster, view.id, r.identifier))
    ensures !deleting ==> r.cleanup.MatchOrigin? && id !in Kept(env.attempts) && (env.attempts == [] ==> env.live.LiveEmpty?)
    ensures deleting ==> !r.cleanup.OrphanCopies?
  {
    var noted := if r.origin.ServiceOrigin? then Remember(synced.world, r.identifier, view, env.attempts, env.rememberFails)
                 else RelOutcome(synced.world, Done, {});
    assert noted.world.copies == synced.world.copies && noted.pruned == {};
    assert id in PruneStage(a, r, cluster, view, noted.world, env, deleting).pruned;
    PruneHitsStale(noted.world, CopyLabels(a, cluster, view.id, r.identifier),
                   if deleting then {} else Kept(env.attempts), env.attempts, env.pruneStop, id);
  }

  /** What a pass prunes, in terms of the objects it resolved and of what a live read said. */
  lemma RulePrunes(a: Agent, r: Rule, cluster: string, view: Object, w: RelWorld, env: PassEnv, deleting: bool, id: NsName)
    requires id in ProcessRule(a, r, cluster, view, w, env, deleting).pruned
    ensures var atPrune := SyncAll(a, r, cluster, view.id, w, env.attempts, deleting).world.copies;
            && !env.unresolved && id in atPrune
            && Matches(atPrune[id].labels, CopyLabels(a, cluster, view.id, r.identifier))
            && (!deleting ==> r.cleanup.MatchOrigin? && id !in Kept(env.attempts))
            && (!deleting && env.attempts == [] ==> env.live.LiveEmpty?)
            && (deleting ==> !r.cleanup.OrphanCopies?)
  {
    SyncPrunesNothing(a, r, cluster, view.id, w, env.attempts, deleting);
    ConcludeSafety(a, r, cluster, view, SyncAll(a, r, cluster, view.id, w, env.attempts, deleting), env, deleting, id);
  }

  /** A prune that does not fail leaves every stale copy gone or on its way out, and all others alone. */
  lemma PruneDeletes(w: RelWorld, selector: map<string, string>, keep: set<NsName>, ts: seq<Attempt>, id: NsName)
    ensures var after := Prune(w, selector, keep, ts, None).world;
            && (id in Stale(w.copies, selector, keep) ==> id !in after.copies || after.copies[id].deleting)
            && (id !in Stale(w.copies, selector, keep) ==> Lookup(after.copies, id) == Lookup(w.copies, id))
            && after == w.(copies := after.copies)
  {
  }

  /** The policy for a copy is that of a resolved object that maps to it, if there is one. */
  lemma {:induction false} PolicyForNamed(ts: seq<Attempt>, id: NsName)
    ensures id in Kept(ts) ==> exists t :: t in ts && t.destination == id && t.policy == PolicyFor(ts, id)
    ensures id !in Kept(ts) ==> PolicyFor(ts, id).Background?
    decreases |ts|
  {
    if ts != [] {
      KeptSplits(ts);
      PolicyForNamed(ts[..|ts|-1], id);
    }
  }

  // ---------------------------------------------------------------- set equality

  /** Neither the resolved objects nor their copies are being deleted. */
  predicate NoneDeleting(w: RelWorld, ts: seq<Attempt>) {
    forall t | t in ts ::
      && !t.original.deleting && !t.blind
      && (t.destination in w.copies ==> !w.copies[t.destination].deleting)
  }

  /** Copies differ at most in status; so the labels and the set of copies are unchanged. */
  predicate SameButStatus(w: RelWorld, w': RelWorld) {
    StoreButStatus(w'.copies) == StoreButStatus(w.copies) && w'.primary == w.primary
  }

  lemma ButStatusReads(m: map<NsName, Object>, m': map<NsName, Object>)
    requires StoreButStatus(m') == StoreButStatus(m)
    ensures m'.Keys == m.Keys
    ensures forall id | id in m :: ButStatus(m'[id]) == ButStatus(m[id])
    ensures forall id | id in m :: m'[id].labels == m[id].labels && m'[id].deleting == m[id].deleting
    ensures forall selector :: Found(m', selector) == Found(m, selector)
  {
    assert m.Keys == StoreButStatus(m).Keys == m'.Keys;
    forall id | id in m
      ensures ButStatus(m'[id]) == ButStatus(m[id])
    {
      assert StoreButStatus(m)[id] == ButStatus(m[id]);
      assert StoreButStatus(m')[id] == ButStatus(m'[id]);
    }
  }

  /** An object whose synchronization is complete has a labelled copy at its destination. */
  lemma DoneMeansLabelled(c: Config, w: World, src: Object, dst: Option<Object>, f: set<Call>)
    requires Sync(c, w, src, dst, f).result.Done?
    requires !src.deleting && !c.forceDelete && ContentOnly(c.mutator)
    requires dst.Some? ==> !dst.value.deleting
    ensures dst.Some? && Matches(dst.value.labels, c.destLabels)
  {
    if dst.Some? {
      var s := MutatedSource(c, src, dst);
      assert MutatedDest(c, s, dst.value).labels == dst.value.labels;
    }
  }

  /** One completed object changes nothing but status, and its copy is labelled. */
  lemma OneComplete(a: Agent, r: Rule, cluster: string, primary: NsName, w: RelWorld, t: Attempt)
    requires SyncOne(a, r, cluster, primary, w, t, false).result.Done? && ContentOnly(r.mutator)
    requires !t.original.deleting && !t.blind
    requires t.destination in w.copies ==> !w.copies[t.destination].deleting
    ensures SameButStatus(w, SyncOne(a, r, cluster, primary, w, t, false).world)
    ensures t.destination in Found(w.copies, CopyLabels(a, cluster, primary, r.identifier))
  {
    var key := AttemptKey(r, cluster, t);
    var c := PassConfig(a, r, cluster, primary, t, false);
    RequeueHonesty(c, Slot(w, key), t.original, CopyView(w, t), t.faults);
    DoneMeansLabelled(c, Slot(w, key), t.original, CopyView(w, t), t.faults);
  }

  lemma KeptSplits(ts: seq<Attempt>)
    requires ts != []
    ensures Kept(ts) == Kept(ts[..|ts|-1]) + {ts[|ts|-1].destination}
    ensures forall t | t in ts[..|ts|-1] :: t in ts
  {
    assert ts == ts[..|ts|-1] + [ts[|ts|-1]];
  }

  lemma {:induction false} CompleteMeansLabelled(a: Agent, r: Rule, cluster: string, primary: NsName, w: RelWorld, ts: seq<Attempt>)
    requires SyncAll(a, r, cluster, primary, w, ts, false).result.Done?
    requires NoneDeleting(w, ts) && ContentOnly(r.mutator)
    ensures SameButStatus(w, SyncAll(a, r, cluster, primary, w, ts, false).world)
    ensures Kept(ts) <= Found(w.copies, CopyLabels(a, cluster, primary, r.identifier))
    decreases |ts|
  {
    if ts != [] {
      var init, t := ts[..|ts|-1], ts[|ts|-1];
      KeptSplits(ts);
      CompleteMeansLabelled(a, r, cluster, primary, w, init);
      var w1 := SyncAll(a, r, cluster, primary, w, init, false).world;
      ButStatusReads(w.copies, w1.copies);
      OneComplete(a, r, cluster, primary, w1, t);
    }
  }

  lemma DeleteNone(copies: map<NsName, Object>, ts: seq<Attempt>)
    ensures DeleteCopies(copies, {}, ts) == copies
  {
  }

  /** A mid-life prune that is done found nothing stale and deleted nothing. */
  lemma ConcludeDone(a: Agent, r: Rule, cluster: string, view: Object, synced: RelOutcome, env: PassEnv, deleting: bool)
    requires deleting || r.cleanup.MatchOrigin?
    requires deleting ==> !r.cleanup.OrphanCopies?
    requires deleting || env.attempts != [] || env.live.LiveEmpty?
    requires Conclude(a, r, cluster, view, synced, env, deleting).result.Done?
    ensures synced.result.Done?
    ensures Conclude(a, r, cluster, view, synced, env, deleting).world == synced.world
    ensures Stale(synced.world.copies, CopyLabels(a, cluster, view.id, r.identifier), if deleting then {} else Kept(env.attempts)) == {}
  {
    DeleteNone(synced.world.copies, env.attempts);
    var selector := CopyLabels(a, cluster, view.id, r.identifier);
    var keep := if deleting then {} else Kept(env.attempts);
    var stale := Stale(synced.world.copies, selector, keep);
    var pruned := Prune(synced.world, selector, keep, env.attempts, env.pruneStop);
    assert pruned.result.Done?;
    assert stale == {};
    assert Doomable(synced.world.copies, stale) == {};
  }

  /** A completed pass of a MatchOrigin rule leaves the destinations of its attempts as labelled copies. */
  lemma RuleCompletes(a: Agent, r: Rule, cluster: string, view: Object, w: RelWorld, env: PassEnv)
    requires r.cleanup.MatchOrigin? && ContentOnly(r.mutator)
    requires NoneDeleting(w, env.attempts)
    requires env.attempts != [] || env.live.LiveEmpty?
    requires ProcessRule(a, r, cluster, view, w, env, false).result.Done?
    ensures var after := ProcessRule(a, r, cluster, view, w, env, false).world.copies;
            Found(after, CopyLabels(a, cluster, view.id, r.identifier)) == Kept(env.attempts)
  {
    var synced := SyncAll(a, r, cluster, view.id, w, env.attempts, false);
    ConcludeDone(a, r, cluster, view, synced, env, false);
    CompleteMeansLabelled(a, r, cluster, view.id, w, env.attempts);
    ButStatusReads(w.copies, synced.world.copies);
  }

  // ---------------------------------------------------------------- teardown

  /** During teardown copies only lose: none appears, none is relabelled. */
  predicate OnlyRemoves(copies: map<NsName, Object>, copies': map<NsName, Object>) {
    forall id | id in copies' :: id in copies && copies'[id].labels == copies[id].labels
  }

  lemma OnlyRemovesShrinks(copies: map<NsName, Object>, copies': map<NsName, Object>, selector: map<string, string>)
    requires OnlyRemoves(copies, copies')
    ensures Found(copies', selector) <= Found(copies, selector)
  {
  }

  lemma DeletionOnlyRemoves(c: Config, w: World, src: Object, dst: Option<Object>, f: set<Call>)
    requires c.forceDelete
    ensures OnlyRemoves(w.dests, Sync(c, w, src, dst, f).world.dests)
  {
  }

  lemma {:induction false} ForcedSyncOnlyRemoves(a: Agent, r: Rule, cluster: string, primary: NsName, w: RelWorld, ts: seq<Attempt>)
    requires ForceDelete(r, true)
    ensures OnlyRemoves(w.copies, SyncAll(a, r, cluster, primary, w, ts, true).world.copies)
    decreases |ts|
  {
    if ts != [] {
      var t := ts[|ts|-1];
      ForcedSyncOnlyRemoves(a, r, cluster, primary, w, ts[..|ts|-1]);
      var w1 := SyncAll(a, r, cluster, primary, w, ts[..|ts|-1], true).world;
      DeletionOnlyRemoves(PassConfig(a, r, cluster, primary, t, true), Slot(w1, AttemptKey(r, cluster, t)), t.original, CopyView(w1, t), t.faults);
    }
  }

  /** A forced synchronization is complete only once there is no copy. */
  lemma ForcedDoneMeansGone(c: Config, w: World, src: Object, dst: Option<Object>, f: set<Call>)
    requires c.forceDelete && c.blockDeletion && Sync(c, w, src, dst, f).result.Done?
    ensures dst.None? && Sync(c, w, src, dst, f).world.dests == w.dests
  {
  }

  /**
   A teardown pass that completes its resolved objects has left none of their copies, both where the
   rule says so and, whatever the rule says, where the originals belong to the user.
   */
  lemma {:induction false} ForcedPassRemovesCopies(a: Agent, r: Rule, cluster: string, primary: NsName, w: RelWorld, ts: seq<Attempt>)
    requires r.origin.KcpOrigin? || !r.cleanup.OrphanCopies?
    requires SyncAll(a, r, cluster, primary, w, ts, true).result.Done?
    requires forall t | t in ts :: !t.blind
    ensures forall t | t in ts :: t.destination !in SyncAll(a, r, cluster, primary, w, ts, true).world.copies
    decreases |ts|
  {
    if ts != [] {
      var init, t := ts[..|ts|-1], ts[|ts|-1];
      KeptSplits(ts);
      ForcedPassRemovesCopies(a, r, cluster, primary, w, init);
      var w1 := SyncAll(a, r, cluster, primary, w, init, true).world;
      ForcedDoneMeansGone(PassConfig(a, r, cluster, primary, t, true), Slot(w1, AttemptKey(r, cluster, t)), t.original, CopyView(w1, t), t.faults);
      assert ts == init + [t];
    }
  }

  lemma DeleteCopiesOnlyRemoves(copies: map<NsName, Object>, doomed: set<NsName>, ts: seq<Attempt>)
    ensures OnlyRemoves(copies, DeleteCopies(copies, doomed, ts))
  {
  }

  lemma PruneStageOnlyRemoves(a: Agent, r: Rule, cluster: string, view: Object, w: RelWorld, env: PassEnv, deleting: bool)
    ensures OnlyRemoves(w.copies, PruneStage(a, r, cluster, view, w, env, deleting).world.copies)
  {
    forall doomed
      ensures OnlyRemoves(w.copies, DeleteCopies(w.copies, doomed, env.attempts))
    {
      DeleteCopiesOnlyRemoves(w.copies, doomed, env.attempts);
    }
  }

  lemma ConcludeOnlyRemoves(a: Agent, r: Rule, cluster: string, view: Object, synced: RelOutcome, env: PassEnv, deleting: bool)
    ensures OnlyRemoves(synced.world.copies, Conclude(a, r, cluster, view, synced, env, deleting).world.copies)
  {
    var noted := if r.origin.ServiceOrigin? then Remember(synced.world, r.identifier, view, env.attempts, env.rememberFails)
                 else RelOutcome(synced.world, Done, {});
    assert noted.world.copies == synced.world.copies;
    PruneStageOnlyRemoves(a, r, cluster, view, noted.world, env, deleting);
  }

  /** A teardown pass never adds a copy, and completes only when no labelled copy is left. */
  lemma TeardownPass(a: Agent, r: Rule, cluster: string, view: Object, w: RelWorld, env: PassEnv)
    requires !r.cleanup.OrphanCopies?
    ensures var o := ProcessRule(a, r, cluster, view, w, env, true);
            && OnlyRemoves(w.copies, o.world.copies)
            && (o.result.Done? ==> Found(o.world.copies, CopyLabels(a, cluster, view.id, r.identifier)) == {})
  {
    var synced := SyncAll(a, r, cluster, view.id, w, env.attempts, true);
    ForcedSyncOnlyRemoves(a, r, cluster, view.id, w, env.attempts);
    ConcludeOnlyRemoves(a, r, cluster, view, synced, env, true);
    if ProcessRule(a, r, cluster, view, w, env, true).result.Done? {
      ConcludeDone(a, r, cluster, view, synced, env, true);
    }
  }
}
