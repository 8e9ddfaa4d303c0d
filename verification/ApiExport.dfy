/**
 Keeping an APIExport up to date: schemas of published resources replace earlier ones of the same
 group/resource, everything else that is listed stays, and missing permission claims are added.
 */
module ApiExports {
  import opened SchemaNames
  import opened Sorting

  // ---------------------------------------------------------------- resource schemas

  function KeysOf(schemas: seq<string>): set<string> {
    set s | s in schemas :: ResourceGroup(s)
  }

  function KnownResources(configured: set<string>): set<string> {
    set s | s in configured :: ResourceGroup(s)
  }

  /** The existing schemas that no published resource replaces. */
  function Unmanaged(existing: seq<string>, known: set<string>): seq<string> {
    if existing == [] then []
    else
      var last := existing[|existing|-1];
      Unmanaged(existing[..|existing|-1], known) + if ResourceGroup(last) !in known then [last] else []
  }

  /** What a merge may result in; elements with equal keys may be ordered either way. */
  predicate IsMerge(existing: seq<string>, configured: set<string>, result: seq<string>) {
    && Sorted(result, ByKey(ResourceGroup))
    && multiset(result) == multiset(configured) + multiset(Unmanaged(existing, KnownResources(configured)))
  }

  method MergeResourceSchemas(existing: seq<string>, configured: set<string>) returns (result: seq<string>)
    ensures IsMerge(existing, configured, result)
  {
    result := [];
    var known := {};
    var left := configured;
    while left != {}
      invariant left <= configured
      invariant multiset(result) == multiset(configured - left)
      invariant known == KnownResources(configured - left)
      decreases left
    {
      var schema :| schema in left;
      result := result + [schema];
      known := known + {ResourceGroup(schema)};
      assert configured - (left - {schema}) == (configured - left) + {schema};
      left := left - {schema};
    }
    assert configured - left == configured;
    ghost var managed := result;
    for i := 0 to |existing|
      invariant result == managed + Unmanaged(existing[..i], known)
    {
      assert existing[..i + 1][..i] == existing[..i];
      if ResourceGroup(existing[i]) !in known {
        result := result + [existing[i]];
      }
    }
    assert existing[..|existing|] == existing;
    KeyOrder(ResourceGroup);
    result := SortBy(result, ByKey(ResourceGroup));
  }

  lemma {:induction false} UnmanagedElements(existing: seq<string>, known: set<string>)
    ensures forall s :: s in Unmanaged(existing, known) <==> s in existing && ResourceGroup(s) !in known
    ensures NoRepeats(existing) ==> NoRepeats(Unmanaged(existing, known))
    decreases |existing|
  {
    if existing != [] {
      var init := existing[..|existing|-1];
      UnmanagedElements(init, known);
      assert existing == init + [existing[|existing|-1]];
      assert NoRepeats(existing) ==> NoRepeats(init);
    }
  }

  /** Configured schemas replace exactly the existing ones of the same group/resource. */
  lemma MergeElements(existing: seq<string>, configured: set<string>, result: seq<string>, s: string)
    requires IsMerge(existing, configured, result)
    ensures s in result <==> s in configured || (s in existing && forall c | c in configured :: GroupResource(c) != GroupResource(s))
  {
    var known := KnownResources(configured);
    UnmanagedElements(existing, known);
    assert s in result <==> s in multiset(result);
    assert ResourceGroup(s) in known <==> exists c | c in configured :: GroupResource(c) == GroupResource(s) by {
      forall c | c in configured
        ensures ResourceGroup(c) == ResourceGroup(s) <==> GroupResource(c) == GroupResource(s)
      {
        ResourceGroupInjective(c, s);
      }
    }
  }

  /** No group/resource that was listed goes missing. */
  lemma MergeNeverShrinks(existing: seq<string>, configured: set<string>, result: seq<string>)
    requires IsMerge(existing, configured, result)
    ensures KeysOf(existing) + KnownResources(configured) == KeysOf(result)
  {
    UnmanagedElements(existing, KnownResources(configured));
    forall s
      ensures s in result <==> s in configured || s in Unmanaged(existing, KnownResources(configured))
    {
      assert s in result <==> s in multiset(result);
    }
  }

  lemma {:induction false} GrowingSets(sets: seq<set<string>>, added: seq<set<string>>, i: nat, j: nat)
    requires |sets| == |added| + 1
    requires forall n | 0 <= n < |added| :: sets[n + 1] == sets[n] + added[n]
    requires i <= j < |sets|
    ensures sets[i] <= sets[j]
    ensures forall n | i <= n < j :: added[n] <= sets[j]
    decreases j - i
  {
    if i < j {
      GrowingSets(sets, added, i, j - 1);
      assert sets[j - 1 + 1] == sets[j - 1] + added[j - 1];
    }
  }

  /** Over any number of reconciliations, with whatever is published at the time, listed stays listed. */
  lemma ListedForever(run: seq<seq<string>>, configured: seq<set<string>>, i: nat, j: nat)
    requires |run| == |configured| + 1
    requires forall n | 0 <= n < |configured| :: IsMerge(run[n], configured[n], run[n + 1])
    requires i <= j < |run|
    ensures KeysOf(run[i]) <= KeysOf(run[j])
    ensures forall n | i <= n < j :: KnownResources(configured[n]) <= KeysOf(run[j])
  {
    var keys := seq(|run|, n requires 0 <= n < |run| => KeysOf(run[n]));
    var added := seq(|configured|, n requires 0 <= n < |configured| => KnownResources(configured[n]));
    forall n | 0 <= n < |added|
      ensures keys[n + 1] == keys[n] + added[n]
    {
      MergeNeverShrinks(run[n], configured[n], run[n + 1]);
    }
    GrowingSets(keys, added, i, j);
    forall n | i <= n < j
      ensures KnownResources(configured[n]) <= KeysOf(run[j])
    {
      assert added[n] <= keys[j];
    }
  }

  /** Of the schemas that end up listed, no two different ones are for one group/resource. */
  predicate OnePerResource(existing: seq<string>, configured: set<string>) {
    && (forall a, b | a in configured && b in configured && ResourceGroup(a) == ResourceGroup(b) :: a == b)
    && (forall a, b | a in existing && b in existing && ResourceGroup(a) == ResourceGroup(b)
                      && ResourceGroup(a) !in KnownResources(configured) :: a == b)
  }

  /** A merge sorts the configured schemas together with the unmanaged ones. */
  lemma MergeSorts(existing: seq<string>, configured: set<string>) returns (xs: seq<string>)
    ensures forall r :: IsMerge(existing, configured, r) <==> IsSorting(xs, r, ByKey(ResourceGroup))
    ensures forall s :: s in xs <==> s in configured || (s in existing && ResourceGroup(s) !in KnownResources(configured))
  {
    var known := KnownResources(configured);
    var managed := ListOf(configured);
    xs := managed + Unmanaged(existing, known);
    UnmanagedElements(existing, known);
    forall s
      ensures s in managed <==> s in configured
    {
      assert s in managed <==> s in multiset(managed);
    }
  }

  /**
   The outcome does not depend on the order in which the set of schemas is traversed, exactly when no two
   different schemas that end up listed are for one group/resource.
   */
  lemma MergeDeterminedIff(existing: seq<string>, configured: set<string>)
    ensures (forall r1, r2 | IsMerge(existing, configured, r1) && IsMerge(existing, configured, r2) :: r1 == r2)
            <==> OnePerResource(existing, configured)
  {
    var xs := MergeSorts(existing, configured);
    KeyOrder(ResourceGroup);
    DeterminedIff(xs, ByKey(ResourceGroup));
    forall a, b
      ensures ByKey(ResourceGroup)(a, b) && ByKey(ResourceGroup)(b, a) <==> ResourceGroup(a) == ResourceGroup(b)
    {
      AtMostTotal(ResourceGroup(a), ResourceGroup(b));
    }
    SeparatesIff(existing, configured, xs);
  }

  lemma SeparatesIff(existing: seq<string>, configured: set<string>, xs: seq<string>)
    requires forall s :: s in xs <==> s in configured || (s in existing && ResourceGroup(s) !in KnownResources(configured))
    requires forall a, b :: ByKey(ResourceGroup)(a, b) && ByKey(ResourceGroup)(b, a) <==> ResourceGroup(a) == ResourceGroup(b)
    ensures Separates(ByKey(ResourceGroup), xs) <==> OnePerResource(existing, configured)
  {
    if OnePerResource(existing, configured) {
      forall a, b | a in xs && b in xs && ByKey(ResourceGroup)(a, b) && ByKey(ResourceGroup)(b, a)
        ensures a == b
      {
        assert a in configured ==> ResourceGroup(a) in KnownResources(configured);
        assert b in configured ==> ResourceGroup(b) in KnownResources(configured);
      }
    }
    if Separates(ByKey(ResourceGroup), xs) {
      forall a, b | a in xs && b in xs && ResourceGroup(a) == ResourceGroup(b)
        ensures a == b
      {
        assert ByKey(ResourceGroup)(a, b);
      }
    }
  }

  lemma {:induction false} UnmanagedCount(existing: seq<string>, known: set<string>, s: string)
    ensures multiset(Unmanaged(existing, known))[s] == if ResourceGroup(s) in known then 0 else multiset(existing)[s]
    decreases |existing|
  {
    if existing != [] {
      UnmanagedCount(existing[..|existing|-1], known, s);
      assert existing == existing[..|existing|-1] + [existing[|existing|-1]];
    }
  }

  /** A second reconciliation with the same published resources lists the same, and where that is determined, the same list. */
  lemma MergeIdempotent(existing: seq<string>, configured: set<string>, once: seq<string>, twice: seq<string>)
    requires IsMerge(existing, configured, once) && IsMerge(once, configured, twice)
    ensures multiset(twice) == multiset(once)
    ensures OnePerResource(existing, configured) ==> twice == once
  {
    var known := KnownResources(configured);
    forall s
      ensures multiset(twice)[s] == multiset(once)[s]
    {
      UnmanagedCount(once, known, s);
      UnmanagedCount(existing, known, s);
      assert s in configured ==> ResourceGroup(s) in known;
    }
    MergeDeterminedIff(existing, configured);
    if OnePerResource(existing, configured) {
      assert IsMerge(existing, configured, twice);
    }
  }

  // ---------------------------------------------------------------- permission claims

  /** `selective`: the claim covers only some objects. */
  datatype Claim = Claim(group: string, resource: string, identity: string, all: bool, selective: bool)

  /** A claim as the agent needs it: for all objects. */
  predicate Full(c: Claim) {
    c.all && !c.selective
  }

  predicate ClaimLe(a: Claim, b: Claim) {
    if a.group != b.group then AtMost(a.group, b.group) else AtMost(a.resource, b.resource)
  }

  function ClaimOrder(): (Claim, Claim) -> bool {
    (a: Claim, b: Claim) => ClaimLe(a, b)
  }

  lemma ClaimOrderTotal()
    ensures TotalPreorder(ClaimOrder())
  {
    forall a, b
      ensures ClaimOrder()(a, b) || ClaimOrder()(b, a)
    {
      AtMostTotal(a.group, b.group);
      AtMostTotal(a.resource, b.resource);
    }
    forall a, b, c | ClaimOrder()(a, b) && ClaimOrder()(b, c)
      ensures ClaimOrder()(a, c)
    {
      ClaimLeTransitive(a, b, c);
    }
  }

  lemma ClaimLeTransitive(a: Claim, b: Claim, c: Claim)
    requires ClaimLe(a, b) && ClaimLe(b, c)
    ensures ClaimLe(a, c)
  {
    AtMostTotal(a.group, b.group);
    AtMostTotal(b.group, c.group);
    AtMostTotal(a.group, c.group);
    if a.group == b.group == c.group {
      AtMostTransitive(a.resource, b.resource, c.resource);
    } else {
      AtMostTransitive(a.group, b.group, c.group);
    }
  }

  /** Required claims that no existing claim covers in full. */
  function MissingClaims(existing: seq<Claim>, required: set<Claim>): set<Claim> {
    set c | c in required && c !in existing
  }

  class ApiExport {
    var schemas: seq<string>
    var claims: seq<Claim>

    constructor (schemas: seq<string>, claims: seq<Claim>)
      ensures this.schemas == schemas && this.claims == claims
    {
      this.schemas, this.claims := schemas, claims;
    }

    /** Adds what is missing, then sorts; nothing that was there is removed. */
    method AddClaims(required: set<Claim>)
      requires forall c | c in required :: Full(c)
      modifies `claims
      ensures Sorted(claims, ClaimOrder())
      ensures multiset(claims) == multiset(old(claims)) + multiset(MissingClaims(old(claims), required))
    {
      var full := {};
      for i := 0 to |claims|
        invariant claims == old(claims)
        invariant full == set c | c in claims[..i] && Full(c)
      {
        assert claims[..i + 1] == claims[..i] + [claims[i]];
        if Full(claims[i]) {
          full := full + {claims[i]};
        }
      }
      assert claims[..|claims|] == claims;
      var missing := required - full;
      assert missing == MissingClaims(claims, required);
      var left := missing;
      while left != {}
        invariant left <= missing
        invariant multiset(claims) == multiset(old(claims)) + multiset(missing - left)
        decreases left
      {
        var c :| c in left;
        claims := claims + [c];
        assert missing - (left - {c}) == (missing - left) + {c};
        left := left - {c};
      }
      assert missing - left == missing;
      ClaimOrderTotal();
      claims := SortBy(claims, ClaimOrder());
    }

    method Reconcile(configured: set<string>, required: set<Claim>)
      requires forall c | c in required :: Full(c)
      modifies this
      ensures IsMerge(old(schemas), configured, schemas)
      ensures IsClaimed(old(claims), required, claims)
    {
      schemas := MergeResourceSchemas(schemas, configured);
      AddClaims(required);
    }
  }

  predicate IsClaimed(existing: seq<Claim>, required: set<Claim>, result: seq<Claim>) {
    && Sorted(result, ClaimOrder())
    && multiset(result) == multiset(existing) + multiset(MissingClaims(existing, required))
  }

  lemma ClaimedElements(existing: seq<Claim>, required: set<Claim>, result: seq<Claim>)
    requires IsClaimed(existing, required, result)
    ensures forall c :: c in result <==> c in existing || c in required
    ensures MissingClaims(result, required) == {}
  {
    forall c
      ensures c in result <==> c in existing || c in required
    {
      assert c in result <==> c in multiset(result);
    }
  }

  /** All existing claims survive, all required ones are there, and none of them is added twice. */
  lemma ClaimsComplete(existing: seq<Claim>, required: set<Claim>, result: seq<Claim>, again: seq<Claim>)
    requires IsClaimed(existing, required, result) && IsClaimed(result, required, again)
    ensures multiset(existing) <= multiset(result)
    ensures forall c | c in required :: c in result
    ensures forall c | c in result :: c in existing || c in required
    ensures multiset(again) == multiset(result)
  {
    ClaimedElements(existing, required, result);
  }

  /** No two different claims, existing or required, are for one group and resource. */
  ghost predicate OneClaimPerResource(existing: seq<Claim>, required: set<Claim>) {
    forall a, b | (a in existing || a in required) && (b in existing || b in required) && a.group == b.group && a.resource == b.resource ::
      a == b
  }

  lemma ClaimsSort(existing: seq<Claim>, required: set<Claim>) returns (xs: seq<Claim>)
    ensures forall r :: IsClaimed(existing, required, r) <==> IsSorting(xs, r, ClaimOrder())
    ensures forall c :: c in xs <==> c in existing || c in required
  {
    var added := ListOf(MissingClaims(existing, required));
    xs := existing + added;
    forall c
      ensures c in added <==> c in required && c !in existing
    {
      assert c in added <==> c in multiset(added);
    }
  }

  lemma ClaimsCompareEqual(a: Claim, b: Claim)
    ensures ClaimOrder()(a, b) && ClaimOrder()(b, a) <==> a.group == b.group && a.resource == b.resource
  {
    AtMostTotal(a.group, b.group);
    AtMostTotal(a.resource, b.resource);
  }

  /**
   The reconciled list does not depend on the order in which claims are collected, exactly when there is
   one claim per group and resource; a selective claim beside the agent's full one may change places with it.
   */
  lemma ClaimsDeterminedIff(existing: seq<Claim>, required: set<Claim>)
    ensures (forall r1, r2 | IsClaimed(existing, required, r1) && IsClaimed(existing, required, r2) :: r1 == r2)
            <==> OneClaimPerResource(existing, required)
  {
    var xs := ClaimsSort(existing, required);
    ClaimOrderTotal();
    DeterminedIff(xs, ClaimOrder());
    forall a, b
      ensures ClaimOrder()(a, b) && ClaimOrder()(b, a) <==> a.group == b.group && a.resource == b.resource
    {
      ClaimsCompareEqual(a, b);
    }
    if Separates(ClaimOrder(), xs) {
      forall a, b | a in xs && b in xs && a.group == b.group && a.resource == b.resource
        ensures a == b
      {
        assert ClaimOrder()(a, b);
      }
    }
  }

  /** A second reconciliation is sure to give the same list in exactly these cases. */
  lemma ClaimsStableIff(existing: seq<Claim>, required: set<Claim>)
    ensures (forall once, twice | IsClaimed(existing, required, once) && IsClaimed(once, required, twice) :: twice == once)
            <==> OneClaimPerResource(existing, required)
  {
    ClaimsDeterminedIff(existing, required);
    forall once, twice | IsClaimed(existing, required, once) && IsClaimed(once, required, twice)
      ensures IsClaimed(existing, required, twice)
    {
      ClaimsComplete(existing, required, once, twice);
    }
    forall once, twice | IsClaimed(existing, required, once) && IsClaimed(existing, required, twice)
      ensures IsClaimed(once, required, twice)
    {
      ClaimedElements(existing, required, once);
    }
  }
}
