/**
 The related-resource pass as a program: loops over resolved objects, annotations and listed copies
 that update the servers step by step. Every method does what its specification in Related says.
 */
module RelatedSyncing {
  import opened Options
  import opened MergePatches
  import opened Objects
  import opened UnstructuredObjects
  import opened ObjectSync
  import opened Syncer
  import opened Convergence
  import opened Related
  import opened Resolving
  import opened Passes

  /** Policies are looked up by copy; copies without an entry are deleted in the background. */
  function PolicyIn(policies: map<NsName, Policy>, id: NsName): Policy {
    if id in policies then policies[id] else Background
  }

  function Members(items: seq<NsName>): set<NsName> {
    set id | id in items
  }

  lemma MembersGrow(items: seq<NsName>, i: nat)
    requires i < |items| && forall j | 0 <= j < i :: items[j] != items[i]
    ensures Members(items[..i + 1]) == Members(items[..i]) + {items[i]} && items[i] !in Members(items[..i])
    ensures items[i] in Members(items)
  {
    assert items[..i + 1] == items[..i] + [items[i]];
  }

  lemma PartGrows(part: set<NsName>, before: set<NsName>, id: NsName)
    ensures part * (before + {id}) == if id in part then part * before + {id} else part * before
  {
  }

  /** The next listed copy is stale unless it is kept, and deleted unless that is under way. */
  lemma VisitNext(copies: map<NsName, Object>, selector: map<string, string>, keep: set<NsName>, items: seq<NsName>, i: nat)
    requires i < |items| && (forall j | 0 <= j < i :: items[j] != items[i]) && Members(items) == Found(copies, selector)
    ensures var id, before, after := items[i], Members(items[..i]), Members(items[..i + 1]);
            var stale := Stale(copies, selector, keep);
            var doomed := Doomable(copies, stale);
            && id in copies && id !in before
            && (if id in keep then id !in stale && stale * after == stale * before
                else id in stale && stale * after == stale * before + {id})
            && (if id in keep || copies[id].deleting then doomed * after == doomed * before
                else id in doomed && doomed * after == doomed * before + {id})
  {
    var stale := Stale(copies, selector, keep);
    MembersGrow(items, i);
    PartGrows(stale, Members(items[..i]), items[i]);
    PartGrows(Doomable(copies, stale), Members(items[..i]), items[i]);
  }

  /** An error in the middle of the pass is the outcome of the whole pass. */
  lemma {:induction false} FailureEndsPass(a: Agent, r: Rule, cluster: string, primary: NsName, w: RelWorld, ts: seq<Attempt>, n: nat, deleting: bool)
    requires n <= |ts|
    requires SyncAll(a, r, cluster, primary, w, ts[..n], deleting).result.Failed?
    ensures SyncAll(a, r, cluster, primary, w, ts, deleting).result.Failed?
    ensures SyncAll(a, r, cluster, primary, w, ts, deleting).world == SyncAll(a, r, cluster, primary, w, ts[..n], deleting).world
    decreases |ts|
  {
    if n == |ts| {
      assert ts[..n] == ts;
    } else {
      assert ts[..|ts|-1][..n] == ts[..n];
      FailureEndsPass(a, r, cluster, primary, w, ts[..|ts|-1], n, deleting);
    }
  }

  lemma KeptGrows(ts: seq<Attempt>, i: nat)
    requires i < |ts|
    ensures Kept(ts[..i + 1]) == Kept(ts[..i]) + {ts[i].destination}
  {
    assert ts[..i + 1] == ts[..i] + [ts[i]];
  }

  class RelatedSyncer {
    const a: Agent
    const cluster: string
    var w: RelWorld

    constructor (a: Agent, cluster: string, w: RelWorld)
      ensures this.a == a && this.cluster == cluster && this.w == w
    {
      this.a := a;
      this.cluster := cluster;
      this.w := w;
    }

    // -------------------------------------------------------------- synchronizing

    method SyncObject(r: Rule, primary: NsName, t: Attempt, deleting: bool) returns (res: Result)
      modifies this
      ensures var o := SyncOne(a, r, cluster, primary, old(w), t, deleting);
              w == o.world && res == o.result
    {
      var key := AttemptKey(r, cluster, t);
      var api := new Servers(Slot(w, key), t.faults);
      var subresources := if r.syncStatus then ["status"] else [];
      var syncer := new ObjectSyncer(PassConfig(a, r, cluster, primary, t, deleting), subresources, api);
      var source := new Unstructured(t.original);
      res := syncer.Sync(source, CopyView(w, t));
      w := Unslot(w, key, api.world);
    }

    /** All resolved objects in order; also collects which copies were synchronized, and how to delete them. */
    method SyncObjects(r: Rule, primary: NsName, ts: seq<Attempt>, deleting: bool)
      returns (res: Result, synced: set<NsName>, policies: map<NsName, Policy>)
      modifies this
      ensures var o := SyncAll(a, r, cluster, primary, old(w), ts, deleting);
              w == o.world && res == o.result
      ensures !res.Failed? ==> synced == Kept(ts) && forall id :: PolicyIn(policies, id) == PolicyFor(ts, id)
    {
      res, synced, policies := Done, {}, map[];
      for i := 0 to |ts|
        invariant !res.Failed?
        invariant w == SyncAll(a, r, cluster, primary, old(w), ts[..i], deleting).world
        invariant res == SyncAll(a, r, cluster, primary, old(w), ts[..i], deleting).result
        invariant synced == Kept(ts[..i])
        invariant forall id :: PolicyIn(policies, id) == PolicyFor(ts[..i], id)
      {
        assert ts[..i + 1][..i] == ts[..i] && ts[..i + 1][i] == ts[i];
        policies := policies[ts[i].destination := ts[i].policy];
        var one := SyncObject(r, primary, ts[i], deleting);
        if one.Failed? {
          FailureEndsPass(a, r, cluster, primary, old(w), ts, i + 1, deleting);
          return Failed, synced, policies;
        }
        res := if res.Requeue? || one.Requeue? then Requeue else Done;
        KeptGrows(ts, i);
        synced := synced + {ts[i].destination};
      }
      assert ts[..|ts|] == ts;
    }

    // -------------------------------------------------------------- pruning

    /** The labelled copies, in no particular order. */
    method List(selector: map<string, string>) returns (items: seq<NsName>)
      ensures forall i, j | 0 <= i < j < |items| :: items[i] != items[j]
      ensures Members(items) == Found(w.copies, selector)
    {
      items := [];
      var left := w.copies.Keys;
      while left != {}
        invariant left <= w.copies.Keys
        invariant forall i, j | 0 <= i < j < |items| :: items[i] != items[j]
        invariant forall id :: id in items <==> id in Found(w.copies, selector) && id !in left
        decreases left
      {
        var id :| id in left;
        if Matches(w.copies[id].labels, selector) {
          items := items + [id];
        }
        left := left - {id};
      }
    }

    /**
     Deletes the listed copies that are not to be kept. `failing` are the copies whose deletion fails;
     `stop` tells how far the prune came in that case.
     */
    method PruneRelatedCopies(selector: map<string, string>, keep: set<NsName>, policies: map<NsName, Policy>,
                              listFails: bool, failing: set<NsName>, ghost ts: seq<Attempt>)
      returns (res: Result, ghost stop: Option<set<NsName>>, ghost pruned: set<NsName>)
      requires forall id :: PolicyIn(policies, id) == PolicyFor(ts, id)
      modifies this
      ensures var o := Prune(old(w), selector, keep, ts, stop);
              w == o.world && res == o.result && pruned == o.pruned
      ensures stop.None? <==> !listFails && Doomable(old(w).copies, Stale(old(w).copies, selector, keep)) !! failing
    {
      res, stop, pruned := Done, Some({}), {};
      var listed := w.copies;
      if listFails {
        DeleteNone(listed, ts);
        return Failed, stop, pruned;
      }
      var items := List(selector);
      ghost var stale := Stale(listed, selector, keep);
      ghost var doomed := Doomable(listed, stale);
      DeleteNone(listed, ts);
      for i := 0 to |items|
        invariant w == old(w).(copies := DeleteCopies(listed, pruned, ts))
        invariant pruned == doomed * Members(items[..i])
        invariant pruned !! failing
        invariant res == if stale * Members(items[..i]) == {} then Done else Requeue
      {
        var id := items[i];
        VisitNext(listed, selector, keep, items, i);
        if id !in keep {
          if !listed[id].deleting {
            if id in failing {
              stop := Some(Members(items[..i]));
              return Failed, stop, pruned;
            }
            DeleteStep(listed, pruned, id, ts);
            w := w.(copies := Store(w.copies, id, Deleted(listed[id], PolicyIn(policies, id))));
            pruned := pruned + {id};
          }
          res := Requeue;
        }
      }
      assert items[..|items|] == items;
      assert stale * Members(items) == stale && doomed * Members(items) == doomed;
      stop := None;
    }

    // -------------------------------------------------------------- remembering

    /** Whether the primary's entries for this rule differ from the desired ones. */
    method EntriesDiffer(annotations: map<string, string>, prefix: string, desired: map<string, string>) returns (changed: bool)
      requires forall k | k in desired :: desired[k] != ""
      ensures changed <==> !EntriesMatch(annotations, prefix, desired)
    {
      changed := false;
      var left := annotations.Keys;
      while left != {} && !changed
        invariant left <= annotations.Keys
        invariant changed <==> exists k | k in annotations.Keys - left :: prefix <= k && k !in desired
        decreases left
      {
        var k :| k in left;
        left := left - {k};
        if prefix <= k && k !in desired {
          changed := true;
        }
      }
      if changed {
        return;
      }
      left := desired.Keys;
      while left != {} && !changed
        invariant left <= desired.Keys
        invariant changed <==> exists k | k in desired.Keys - left :: !(k in annotations && annotations[k] == desired[k])
        decreases left
      {
        var k :| k in left;
        left := left - {k};
        if Read(annotations, k) != desired[k] {
          changed := true;
        }
      }
    }

    /** Drops the entries under the prefix, then adds the desired ones. */
    method ReplaceEntries(annotations: map<string, string>, prefix: string, desired: map<string, string>) returns (next: map<string, string>)
      ensures next == (map k | k in annotations && !(prefix <= k) :: annotations[k]) + desired
    {
      next := annotations;
      var left := annotations.Keys;
      while left != {}
        invariant left <= annotations.Keys
        invariant forall k :: k in next <==> k in annotations && (k in left || !(prefix <= k))
        invariant forall k | k in next :: next[k] == annotations[k]
        decreases left
      {
        var k :| k in left;
        if prefix <= k {
          next := next - {k};
        }
        left := left - {k};
      }
      next := next + desired;
    }

    method RememberRelatedObjects(identifier: string, view: Unstructured, ts: seq<Attempt>, fails: bool) returns (res: Result)
      modifies this, view
      ensures var o := Remember(old(w), identifier, old(view.value), ts, fails);
              w == o.world && res == o.result
    {
      if ts == [] {
        return Done;
      }
      var prefix := AnnotationPrefix(identifier);
      var desired := map[];
      for i := 0 to |ts|
        invariant desired == Desired(identifier, ts[..i])
      {
        assert ts[..i + 1][..i] == ts[..i];
        desired := desired[prefix + Digits(i) := Describe(ts[i])];
      }
      assert ts[..|ts|] == ts;
      DescriptionsNotEmpty(identifier, ts);
      var annotations := view.value.annotations;
      var changed := EntriesDiffer(annotations, prefix, desired);
      RememberedIffMatch(annotations, identifier, ts);
      if !changed {
        return Done;
      }
      var next := ReplaceEntries(annotations, prefix, desired);
      view.value := view.value.(annotations := next);
      if fails || w.primary.None? {
        return Failed;
      }
      var p := w.primary.value;
      w := w.(primary := Some(p.(annotations := PatchMap(p.annotations, annotations, next))));
      res := Requeue;
    }

    // -------------------------------------------------------------- one pass

    /** Re-runs the resolution against the live reader, if there is one. */
    method ConfirmOriginEmpty(live: Option<OriginView>) returns (answer: Live)
      ensures answer == Confirmation(live)
    {
      if live.None? {
        return NoReader;
      }
      var ok, resolved := ResolveInOrder(live.value);
      if !ok {
        return LiveError;
      }
      if |resolved| == 0 {
        assert ResolvedBy(live.value) == {};
        answer := LiveEmpty;
      } else {
        assert resolved[0] in resolved;
        answer := LiveFound;
      }
    }

    method Attempts(p: Pass, resolved: seq<Resolved>) returns (ts: seq<Attempt>)
      ensures ts == AttemptsFor(p, resolved)
    {
      ts := [];
      for i := 0 to |resolved|
        invariant ts == AttemptsFor(p, resolved[..i])
      {
        assert resolved[..i + 1][..i] == resolved[..i];
        ts := ts + [AttemptFor(p, resolved[i])];
      }
      assert resolved[..|resolved|] == resolved;
    }

    /** Deletes what is no longer wanted, once the objects of the pass are synchronized and remembered. */
    method PruneAfter(r: Rule, view: Object, p: Pass, synced: set<NsName>, policies: map<NsName, Policy>, deleting: bool, ghost env: PassEnv)
      returns (pruned: Result, ghost seen: PassEnv)
      requires env.live == Confirmation(p.live) && synced == Kept(env.attempts)
      requires (synced == {} <==> env.attempts == []) && forall id :: PolicyIn(policies, id) == PolicyFor(env.attempts, id)
      modifies this
      ensures seen == env.(pruneStop := seen.pruneStop)
      ensures !p.listFails && p.failing == {} ==> seen.pruneStop.None?
      ensures var o := PruneStage(a, r, cluster, view, old(w), seen, deleting);
              w == o.world && pruned == o.result
    {
      seen := env.(pruneStop := None);
      pruned := Done;
      var selector := CopyLabels(a, cluster, view.id, r.identifier);
      ghost var stop, ids;
      if deleting && (r.cleanup.OnPrimaryDeletion? || r.cleanup.MatchOrigin?) {
        pruned, stop, ids := PruneRelatedCopies(selector, {}, policies, p.listFails, p.failing, env.attempts);
        seen := env.(pruneStop := stop);
      } else if !deleting && r.cleanup.MatchOrigin? {
        if synced == {} {
          var answer := ConfirmOriginEmpty(p.live);
          if !answer.LiveEmpty? {
            return if answer.NoReader? then Done else if answer.LiveError? then Failed else Requeue, seen;
          }
        }
        pruned, stop, ids := PruneRelatedCopies(selector, synced, policies, p.listFails, p.failing, env.attempts);
        seen := env.(pruneStop := stop);
      }
    }

    /** Processes one rule; the returned environment is the one the inputs of the pass lead to. */
    method ProcessRelatedResource(r: Rule, view: Object, p: Pass, deleting: bool) returns (res: Result, ghost seen: PassEnv)
      modifies this
      ensures Fits(p, seen)
      ensures !p.listFails && p.failing == {} ==> seen.pruneStop.None?
      ensures var o := ProcessRule(a, r, cluster, view, old(w), seen, deleting);
              w == o.world && res == o.result
    {
      var ok, resolved := ResolveInOrder(p.cached);
      seen := PassEnv(!ok, AttemptsFor(p, resolved), Confirmation(p.live), p.rememberFails, None);
      if !ok {
        return Failed, seen;
      }
      assert Fits(p, seen);
      var ts := Attempts(p, resolved);
      var requeue, synced, policies := SyncObjects(r, view.id, ts, deleting);
      if requeue.Failed? {
        return Failed, seen;
      }
      if r.origin.ServiceOrigin? {
        var primary := new Unstructured(view);
        var noted := RememberRelatedObjects(r.identifier, primary, ts, p.rememberFails);
        if !noted.Done? {
          return noted, seen;
        }
      }
      ghost var env := seen;
      KeptEmpty(ts);
      var pruned;
      pruned, seen := PruneAfter(r, view, p, synced, policies, deleting, env);
      assert Fits(p, seen);
      res := if pruned.Failed? then Failed else if requeue.Requeue? || pruned.Requeue? then Requeue else Done;
    }
  }

  lemma KeptEmpty(ts: seq<Attempt>)
    ensures Kept(ts) == {} <==> ts == []
  {
    if ts != [] {
      assert ts[0].destination in Kept(ts);
    }
  }

  lemma DeleteStep(copies: map<NsName, Object>, doomed: set<NsName>, id: NsName, ts: seq<Attempt>)
    requires id in copies && id !in doomed
    ensures DeleteCopies(copies, doomed + {id}, ts)
            == Store(DeleteCopies(copies, doomed, ts), id, Deleted(copies[id], PolicyFor(ts, id)))
  {
  }

  predicate EntriesMatch(annotations: map<string, string>, prefix: string, desired: map<string, string>) {
    && (forall k | k in annotations && prefix <= k :: k in desired)
    && (forall k | k in desired :: k in annotations && annotations[k] == desired[k])
  }

  /** Replacing the entries changes nothing exactly when they are already right. */
  lemma RememberedIffMatch(annotations: map<string, string>, identifier: string, ts: seq<Attempt>)
    ensures Remembered(annotations, identifier, ts) == annotations
            <==> EntriesMatch(annotations, AnnotationPrefix(identifier), Desired(identifier, ts))
  {
    var prefix, desired := AnnotationPrefix(identifier), Desired(identifier, ts);
    var next := Remembered(annotations, identifier, ts);
    if next == annotations {
      forall k | k in annotations && prefix <= k
        ensures k in desired
      {
        assert k in next;
      }
      forall k | k in desired
        ensures k in annotations && annotations[k] == desired[k]
      {
        assert k in next && next[k] == desired[k];
      }
    }
  }

  lemma {:induction false} DescriptionsNotEmpty(identifier: string, ts: seq<Attempt>)
    ensures forall k | k in Desired(identifier, ts) :: Desired(identifier, ts)[k] != ""
    decreases |ts|
  {
    if ts != [] {
      DescriptionsNotEmpty(identifier, ts[..|ts|-1]);
      assert |Describe(ts[|ts|-1])| > 0;
    }
  }
}
