/**
 One pass for one rule from its inputs: what a cached client shows of the origin side, what a live one
 would show, and which calls fail. The objects of the pass are resolved, not given.
 */
module Passes {
  import opened Options
  import opened Objects
  import opened ObjectSync
  import opened Convergence
  import opened Related
  import opened Resolving
  import opened Sorting

  /** How one resolved object fares: the deletion policy it asks for, and which calls for it fail. */
  datatype Handling = Handling(policy: Policy, blind: bool, faults: set<Call>)

  /** `live` is None when no uncached reader is configured. */
  datatype Pass = Pass(
    cached: OriginView,
    live: Option<OriginView>,
    handling: NsName -> Handling,
    rememberFails: bool,
    listFails: bool,
    failing: set<NsName>)

  function AttemptFor(p: Pass, r: Resolved): Attempt {
    var h := p.handling(r.original.id);
    Attempt(r.original, r.destination, h.policy, h.blind, h.faults)
  }

  function AttemptsFor(p: Pass, rs: seq<Resolved>): (ts: seq<Attempt>)
    ensures |ts| == |rs| && forall i | 0 <= i < |rs| :: ts[i] == AttemptFor(p, rs[i])
  {
    if rs == [] then [] else AttemptsFor(p, rs[..|rs|-1]) + [AttemptFor(p, rs[|rs|-1])]
  }

  /** What re-running the resolution against the live reader says. */
  function Confirmation(live: Option<OriginView>): Live {
    if live.None? then NoReader
    else if !Resolves(live.value) then LiveError
    else if ResolvedBy(live.value) == {} then LiveEmpty
    else LiveFound
  }

  /** The environment of the pass is the one these inputs lead to. */
  ghost predicate Fits(p: Pass, env: PassEnv) {
    && (env.unresolved <==> !Resolves(p.cached))
    && (Resolves(p.cached) ==> exists rs :: IsResolution(p.cached, rs) && env.attempts == AttemptsFor(p, rs))
    && env.live == Confirmation(p.live)
    && env.rememberFails == p.rememberFails
  }

  function Destinations(rs: set<Resolved>): set<NsName> {
    set r | r in rs :: r.destination
  }

  lemma FitsKeeps(p: Pass, env: PassEnv)
    requires Fits(p, env) && Resolves(p.cached)
    ensures Kept(env.attempts) == Destinations(ResolvedBy(p.cached))
    ensures env.attempts == [] <==> ResolvedBy(p.cached) == {}
    ensures forall t | t in env.attempts :: exists r :: r in ResolvedBy(p.cached) && t == AttemptFor(p, r)
  {
    var rs :| IsResolution(p.cached, rs) && env.attempts == AttemptsFor(p, rs);
    var ts := env.attempts;
    forall t | t in ts
      ensures exists r :: r in ResolvedBy(p.cached) && t == AttemptFor(p, r)
    {
      var i :| 0 <= i < |ts| && ts[i] == t;
      assert rs[i] in rs;
    }
    forall r | r in ResolvedBy(p.cached)
      ensures r.destination in Kept(ts)
    {
      assert r in rs;
      var i :| 0 <= i < |rs| && rs[i] == r;
      assert ts[i] in ts && ts[i].destination == r.destination;
    }
    if ts == [] {
      assert rs == [];
    } else {
      assert rs[0] in rs;
    }
  }

  /** With namespaces as they are, the inputs determine what is attempted. */
  lemma FitsUnique(p: Pass, e1: PassEnv, e2: PassEnv)
    requires p.cached.namespaces.Some? ==> forall ns | ns in p.cached.namespaces.value :: SlashFree(ns)
    requires Fits(p, e1) && Fits(p, e2) && Resolves(p.cached)
    ensures e1.attempts == e2.attempts
  {
    var xs :| IsResolution(p.cached, xs) && e1.attempts == AttemptsFor(p, xs);
    var ys :| IsResolution(p.cached, ys) && e2.attempts == AttemptsFor(p, ys);
    CanonicalOrder(p.cached, xs, ys);
  }

  /**
   Prune safety, however stale the cache: a pruned copy carries the labels of this owner and rule; mid-life
   no object resolved in this pass maps to it; and if the cache showed no object at all, a live reader is
   configured, all its reads succeeded and it found none either.
   */
  lemma PruneSafety(a: Agent, r: Rule, cluster: string, view: Object, w: RelWorld, p: Pass, env: PassEnv, deleting: bool, id: NsName)
    requires Fits(p, env) && id in ProcessRule(a, r, cluster, view, w, env, deleting).pruned
    ensures Resolves(p.cached)
    ensures var atPrune := SyncAll(a, r, cluster, view.id, w, env.attempts, deleting).world.copies;
            id in atPrune && Matches(atPrune[id].labels, CopyLabels(a, cluster, view.id, r.identifier))
    ensures !deleting ==> r.cleanup.MatchOrigin? && id !in Destinations(ResolvedBy(p.cached))
    ensures !deleting && ResolvedBy(p.cached) == {} ==>
              p.live.Some? && Resolves(p.live.value) && ResolvedBy(p.live.value) == {}
    ensures deleting ==> !r.cleanup.OrphanCopies?
  {
    RulePrunes(a, r, cluster, view, w, env, deleting, id);
    FitsKeeps(p, env);
  }

  /** Neither a resolved object nor its copy is being deleted, and every copy can be read. */
  predicate AllLive(w: RelWorld, p: Pass) {
    forall r | r in ResolvedBy(p.cached) ::
      && !r.original.deleting && !p.handling(r.original.id).blind
      && (r.destination in w.copies ==> !w.copies[r.destination].deleting)
  }

  /**
   A completed mid-life pass of a MatchOrigin rule, whose resolution was not empty or confirmed to be,
   leaves exactly the destinations of the resolved objects as labelled copies.
   */
  lemma MatchOriginSetEquality(a: Agent, r: Rule, cluster: string, view: Object, w: RelWorld, p: Pass, env: PassEnv)
    requires r.cleanup.MatchOrigin? && ContentOnly(r.mutator) && Fits(p, env) && AllLive(w, p)
    requires ResolvedBy(p.cached) != {} || Confirmation(p.live).LiveEmpty?
    requires ProcessRule(a, r, cluster, view, w, env, false).result.Done?
    ensures var after := ProcessRule(a, r, cluster, view, w, env, false).world.copies;
            Found(after, CopyLabels(a, cluster, view.id, r.identifier)) == Destinations(ResolvedBy(p.cached))
  {
    FitsKeeps(p, env);
    RuleCompletes(a, r, cluster, view, w, env);
  }
}
