/**
 The Process call as a program. Its reading half finds the copy of a primary object; its writing half
 is exactly one Commit step of the lifecycle, whatever fails along the way.
 */
module Processing {
  import opened Options
  import opened MergePatches
  import opened Objects
  import opened UnstructuredObjects
  import opened ObjectSync
  import opened Syncer
  import opened Convergence
  import opened Related
  import opened Resolving
  import opened Passes
  import opened RelatedSyncing
  import opened Lifecycle

  /** Rules see only their own environment. */
  lemma {:induction false} RunRulesDepends(st: Setup, k: Key, sys: Sys, view: Object, n: nat, e1: nat -> PassEnv, e2: nat -> PassEnv, deleting: bool)
    requires n <= |st.rules|
    requires forall i: nat | i < n :: e1(i) == e2(i)
    ensures RunRules(st, k, sys, view, n, e1, deleting) == RunRules(st, k, sys, view, n, e2, deleting)
  {
    if n > 0 {
      RunRulesDepends(st, k, sys, view, n - 1, e1, e2, deleting);
    }
  }

  /** A rule that does not complete decides the outcome of all rules. */
  lemma {:induction false} UnfinishedRuleEnds(st: Setup, k: Key, sys: Sys, view: Object, n: nat, m: nat, envs: nat -> PassEnv, deleting: bool)
    requires n <= m <= |st.rules|
    requires !RunRules(st, k, sys, view, n, envs, deleting).result.Done?
    ensures RunRules(st, k, sys, view, m, envs, deleting) == RunRules(st, k, sys, view, n, envs, deleting)
  {
    if n < m {
      UnfinishedRuleEnds(st, k, sys, view, n, m - 1, envs, deleting);
    }
  }

  /** The first n environments are those the inputs of the passes lead to. */
  ghost predicate FirstFit(passes: nat -> Pass, envs: nat -> PassEnv, n: nat) {
    forall i: nat {:trigger envs(i)} | i < n :: Fits(passes(i), envs(i))
  }

  const UNSEEN := PassEnv(true, [], NoReader, false, None)

  ghost function With(envs: nat -> PassEnv, n: nat, env: PassEnv): nat -> PassEnv {
    (i: nat) => if i == n then env else envs(i)
  }

  class ResourceSyncer {
    const st: Setup
    const subresources: seq<string>
    var sys: Sys

    constructor (st: Setup, subresources: seq<string>, sys: Sys)
      ensures this.st == st && this.subresources == subresources && this.sys == sys
    {
      this.st := st;
      this.subresources := subresources;
      this.sys := sys;
    }

    ghost predicate Valid() {
      st.subresources == set x | x in subresources
    }

    /** Lists labelled copies, but no more than two. */
    method ListTwo(selector: map<string, string>) returns (items: set<NsName>)
      ensures items <= Found(sys.dests, selector)
      ensures |items| >= 2 || items == Found(sys.dests, selector)
    {
      items := {};
      var left := sys.dests.Keys;
      while left != {} && |items| < 2
        invariant left <= sys.dests.Keys
        invariant items <= Found(sys.dests, selector) <= items + left
        decreases left
      {
        var id :| id in left;
        left := left - {id};
        if Matches(sys.dests[id].labels, selector) {
          items := items + {id};
        }
      }
    }

    /** The one copy labelled for this primary; more than one is an error. */
    method FindLocalObject(k: Key) returns (ok: bool, local: Option<Object>)
      ensures var found := Found(sys.dests, SelectorOf(st, k));
              && (ok <==> |found| <= 1)
              && (ok ==> local == if found == {} then None else Some(sys.dests[Pick(found)]))
    {
      var items := ListTwo(SelectorOf(st, k));
      Fewer(items, Found(sys.dests, SelectorOf(st, k)));
      if |items| >= 2 {
        return false, None;
      }
      if items == {} {
        return true, None;
      }
      PickOnly(items);
      var id :| id in items;
      return true, Some(sys.dests[id]);
    }

    method ProcessRule(k: Key, view: Object, r: Rule, p: Pass, deleting: bool) returns (res: Result, ghost seen: PassEnv)
      modifies this
      ensures Fits(p, seen)
      ensures var o := RunRule(st, k, old(sys), view, r, seen, deleting);
              sys == o.sys && res == o.result
    {
      var syncer := new RelatedSyncer(st.agent, k.cluster, RuleWorld(k, r, sys));
      res, seen := syncer.ProcessRelatedResource(r, view, p, deleting);
      sys := AfterRule(k, r, sys, syncer.w);
    }

    /** The next rule, after i rules have completed since the ghost state `start`. */
    method ProcessNext(k: Key, view: Object, i: nat, p: Pass, deleting: bool, ghost start: Sys, ghost before: nat -> PassEnv)
      returns (res: Result, ghost seen: nat -> PassEnv)
      requires i < |st.rules|
      requires RunRules(st, k, start, view, i, before, deleting) == SysOutcome(sys, [], Done)
      modifies this
      ensures RunRules(st, k, start, view, i + 1, seen, deleting) == SysOutcome(sys, [], res)
      ensures Fits(p, seen(i)) && forall j: nat {:trigger seen(j)} | j != i :: seen(j) == before(j)
    {
      ghost var e;
      res, e := ProcessRule(k, view, st.rules[i], p, deleting);
      seen := With(before, i, e);
      RunRulesDepends(st, k, start, view, i, before, seen, deleting);
    }

    /** Rules one by one, until all have completed or one has not. */
    method ProcessUntil(k: Key, view: Object, passes: nat -> Pass, deleting: bool)
      returns (res: Result, n: nat, ghost seen: nat -> PassEnv)
      modifies this
      ensures n <= |st.rules| && (res.Done? ==> n == |st.rules|)
      ensures RunRules(st, k, old(sys), view, n, seen, deleting) == SysOutcome(sys, [], res)
      ensures FirstFit(passes, seen, n)
    {
      seen, res, n := (i: nat) => UNSEEN, Done, 0;
      while n < |st.rules| && res.Done?
        invariant n <= |st.rules|
        invariant RunRules(st, k, old(sys), view, n, seen, deleting) == SysOutcome(sys, [], res)
        invariant FirstFit(passes, seen, n)
      {
        ghost var before := seen;
        res, seen := ProcessNext(k, view, n, passes(n), deleting, old(sys), before);
        FirstFitGrows(passes, before, seen, n);
        n := n + 1;
      }
    }

    /** The rules in order; the first that does not complete ends the call. */
    method ProcessRelatedResources(k: Key, view: Object, passes: nat -> Pass, deleting: bool)
      returns (res: Result, ghost seen: nat -> PassEnv, ghost n: nat)
      modifies this
      ensures RunRules(st, k, old(sys), view, |st.rules|, seen, deleting) == SysOutcome(sys, [], res)
      ensures n <= |st.rules| && (res.Done? ==> n == |st.rules|) && FirstFit(passes, seen, n)
    {
      var done: nat;
      res, done, seen := ProcessUntil(k, view, passes, deleting);
      n := done;
      if !res.Done? {
        UnfinishedRuleEnds(st, k, old(sys), view, n, |st.rules|, seen, deleting);
      }
    }

    method SyncPrimaryObject(k: Key, v: View, faults: set<Call>) returns (res: Result, ghost log: seq<Call>)
      requires Valid()
      modifies this
      ensures SysOutcome(sys, log, res) == SyncPrimary(st, k, old(sys), v, faults)
    {
      var w := World(sys.primary, sys.dests, NamespacesOf(sys.namespaces, ""), Lookup(sys.state, EntryKey(k)));
      var api := new Servers(w, faults);
      var syncer := new ObjectSyncer(PrimaryConfig(st, k, v.source), subresources, api);
      var source := new Unstructured(v.source);
      res := syncer.Sync(source, v.copy);
      log := api.log;
      sys := sys.(primary := api.world.source, dests := api.world.dests,
      namespaces := sys.namespaces["" := api.world.namespaces],
      state := Store(sys.state, EntryKey(k), api.world.state));
    }

    /** Everything Process does after its reads. */
    method Process(k: Key, v: View, faults: set<Call>, down: nat -> Pass, up: nat -> Pass)
      returns (res: Result, ghost log: seq<Call>, ghost seen: Chance, ghost nDown: nat, ghost nUp: nat)
      requires Valid()
      modifies this
      ensures SysOutcome(sys, log, res) == Finish(st, k, old(sys), v, seen)
      ensures seen.faults == faults && FirstFit(down, seen.down, nDown) && FirstFit(up, seen.up, nUp)
      ensures res.Done? && v.copy.Some? ==> nUp == |st.rules| && (v.source.deleting ==> nDown == |st.rules|)
    {
      log, nDown, nUp := [], 0, 0;
      seen := Chance(faults, (i: nat) => UNSEEN, (i: nat) => UNSEEN);
      if v.source.deleting && v.copy.Some? {
        ghost var envs;
        res, envs, nDown := ProcessRelatedResources(k, v.source, down, true);
        seen := seen.(down := envs);
        if !res.Done? {
          return;
        }
      }
      res, log := SyncPrimaryObject(k, v, faults);
      if !res.Done? || v.copy.None? {
        return;
      }
      ghost var envs;
      res, envs, nUp := ProcessRelatedResources(k, v.source, up, false);
      seen := seen.(up := envs);
    }
  }

  lemma FirstFitGrows(passes: nat -> Pass, before: nat -> PassEnv, after: nat -> PassEnv, n: nat)
    requires FirstFit(passes, before, n) && Fits(passes(n), after(n))
    requires forall j: nat {:trigger after(j)} | j != n :: after(j) == before(j)
    ensures FirstFit(passes, after, n + 1)
  {
    forall i: nat {:trigger after(i)} | i < n + 1
      ensures Fits(passes(i), after(i))
    {
      if i < n {
        assert Fits(passes(i), before(i));
      }
    }
  }

  lemma Fewer(a: set<NsName>, b: set<NsName>)
    requires a <= b
    ensures |a| <= |b|
  {
    assert b == a + (b - a);
  }
}
