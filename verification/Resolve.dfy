/**
 Resolving a related-resource rule to origin objects, in an order that does not depend on how maps
 happen to be traversed, and the numbered annotations on the primary that follow from it.
 */
module Resolving {
  import opened Options
  import opened Objects
  import opened ObjectSync
  import opened Related
  import opened SchemaNames
  import opened Sorting

  datatype Resolved = Resolved(original: Object, destination: NsName)

  // ---------------------------------------------------------------- resolution

  /** Pairs up two lists of names, skipping pairs with an empty side; later pairs win. */
  method MapSlices(a: seq<string>, b: seq<string>) returns (mapping: map<string, string>)
    requires |a| == |b|
    ensures forall k :: k in mapping <==> exists i | 0 <= i < |a| :: Pairs(a, b, i, k)
    ensures forall i | 0 <= i < |a| && Pairs(a, b, i, a[i]) && (forall j | i < j < |a| :: !Pairs(a, b, j, a[i])) ::
              mapping[a[i]] == b[i]
  {
    mapping := map[];
    for i := 0 to |a|
      invariant forall k :: k in mapping <==> exists j | 0 <= j < i :: Pairs(a, b, j, k)
      invariant forall j | 0 <= j < i && Pairs(a, b, j, a[j]) && (forall l | j < l < i :: !Pairs(a, b, l, a[j])) ::
                  a[j] in mapping && mapping[a[j]] == b[j]
    {
      if b[i] != "" && a[i] != "" {
        assert Pairs(a, b, i, a[i]);
        mapping := mapping[a[i] := b[i]];
      }
    }
  }

  predicate Pairs(a: seq<string>, b: seq<string>, i: int, k: string)
    requires |a| == |b| && 0 <= i < |a|
  {
    a[i] == k && k != "" && b[i] != ""
  }

  /** What is read for one origin name: an object, nothing (it has just gone), or an error. */
  datatype Reading = Got(o: Object) | NotFound | ReadError

  function Resolution(ns: string, destNs: string, names: map<string, string>, read: NsName -> Reading): set<Resolved> {
    set n | n in names && read(NsName(ns, n)).Got? ::
      Resolved(read(NsName(ns, n)).o.(id := NsName(ns, n)), NsName(destNs, names[n]))
  }

  /** How names are found in one namespace; None where that fails. */
  type Names = string -> Option<map<string, string>>

  function NamesIn(names: Names, ns: string): map<string, string> {
    if names(ns).Some? then names(ns).value else map[]
  }

  /** Everything a rule resolves to: all names of all namespaces that have an object. */
  function Resolutions(namespaces: map<string, string>, names: Names, read: NsName -> Reading): set<Resolved> {
    set ns, r | ns in namespaces && r in Resolution(ns, namespaces[ns], NamesIn(names, ns), read) :: r
  }

  /** No step of the resolution fails. */
  predicate Readable(namespaces: map<string, string>, names: Names, read: NsName -> Reading) {
    forall ns | ns in namespaces :: names(ns).Some? && forall n | n in names(ns).value :: !read(NsName(ns, n)).ReadError?
  }

  predicate Distinct(rs: seq<Resolved>) {
    forall i, j | 0 <= i < j < |rs| :: rs[i].original.id != rs[j].original.id
  }

  method ResolveInNamespace(ns: string, destNs: string, names: map<string, string>, read: NsName -> Reading, start: seq<Resolved>)
    returns (ok: bool, result: seq<Resolved>)
    requires Distinct(start) && forall r | r in start :: r.original.id.namespace != ns
    ensures ok <==> forall n | n in names :: !read(NsName(ns, n)).ReadError?
    ensures ok ==> Distinct(result) && forall r :: r in result <==> r in start || r in Resolution(ns, destNs, names, read)
  {
    ok, result := true, start;
    var left := names.Keys;
    while left != {}
      invariant left <= names.Keys
      invariant forall n | n in names && n !in left :: !read(NsName(ns, n)).ReadError?
      invariant Distinct(result)
      invariant forall r | r in result && r.original.id.namespace == ns :: r.original.id.name !in left
      invariant forall r :: r in result <==> r in start || r in Resolution(ns, destNs, names - left, read)
      decreases left
    {
      var n :| n in left;
      var key := NsName(ns, n);
      if read(key).ReadError? {
        return false, [];
      }
      left := left - {n};
      if read(key).Got? {
        var r := Resolved(read(key).o.(id := key), NsName(destNs, names[n]));
        assert (names - left)[n] == names[n];
        result := result + [r];
      }
    }
    assert names - left == names;
  }

  /** Goes through the namespaces in any order. */
  method ResolveInNamespaces(namespaces: map<string, string>, names: Names, read: NsName -> Reading)
    returns (ok: bool, result: seq<Resolved>)
    ensures ok <==> Readable(namespaces, names, read)
    ensures ok ==> Distinct(result) && forall r :: r in result <==> r in Resolutions(namespaces, names, read)
  {
    ok, result := true, [];
    var left := namespaces.Keys;
    while left != {}
      invariant left <= namespaces.Keys
      invariant Readable(namespaces - left, names, read)
      invariant Distinct(result)
      invariant forall r | r in result :: r.original.id.namespace !in left
      invariant forall r :: r in result <==> r in Resolutions(namespaces - left, names, read)
      decreases left
    {
      var ns :| ns in left;
      if names(ns).None? {
        return false, [];
      }
      ok, result := ResolveInNamespace(ns, namespaces[ns], names(ns).value, read, result);
      if !ok {
        return false, [];
      }
      ResolutionsGrow(namespaces, left, ns, names, read);
      left := left - {ns};
    }
    assert namespaces - left == namespaces;
  }

  lemma ResolutionsGrow(namespaces: map<string, string>, left: set<string>, ns: string, names: Names, read: NsName -> Reading)
    requires ns in left && ns in namespaces
    ensures Resolutions(namespaces - (left - {ns}), names, read)
            == Resolutions(namespaces - left, names, read) + Resolution(ns, namespaces[ns], NamesIn(names, ns), read)
  {
    var m, m' := namespaces - left, namespaces - (left - {ns});
    assert ns in m' && m'[ns] == namespaces[ns];
    assert forall x | x in m :: x in m' && m'[x] == m[x];
    assert forall x | x in m' :: x == ns || x in m;
  }

  // ---------------------------------------------------------------- ordering

  function KeyString(id: NsName): string {
    id.namespace + "/" + id.name
  }

  predicate SlashFree(s: string) {
    '/' !in s
  }

  lemma KeyStringInjective(a: NsName, b: NsName)
    requires SlashFree(a.namespace) && SlashFree(b.namespace)
    requires KeyString(a) == KeyString(b)
    ensures a == b
  {
    var s := KeyString(a);
    assert s[|a.namespace|] == '/' && s[|b.namespace|] == '/';
    assert s[..|a.namespace|] == a.namespace && s[..|b.namespace|] == b.namespace;
    assert s[|a.namespace| + 1..] == a.name && s[|b.namespace| + 1..] == b.name;
  }

  function OriginKey(r: Resolved): string {
    KeyString(r.original.id)
  }

  /**
   The origin side as one client shows it -- from a cache or live: in which namespaces to look (None where
   finding them fails), under which names, and what is there.
   */
  datatype OriginView = OriginView(namespaces: Option<map<string, string>>, names: Names, read: NsName -> Reading)

  predicate Resolves(v: OriginView) {
    v.namespaces.Some? && Readable(v.namespaces.value, v.names, v.read)
  }

  function ResolvedBy(v: OriginView): set<Resolved> {
    if v.namespaces.None? then {} else Resolutions(v.namespaces.value, v.names, v.read)
  }

  /** The list is what the view resolves to, sorted by origin. */
  ghost predicate IsResolution(v: OriginView, rs: seq<Resolved>) {
    Sorted(rs, ByKey(OriginKey)) && NoRepeats(rs) && forall r :: r in rs <==> r in ResolvedBy(v)
  }

  method ResolveInOrder(v: OriginView) returns (ok: bool, result: seq<Resolved>)
    ensures ok <==> Resolves(v)
    ensures ok ==> IsResolution(v, result)
  {
    if v.namespaces.None? {
      return false, [];
    }
    ok, result := ResolveInNamespaces(v.namespaces.value, v.names, v.read);
    if ok {
      ghost var found := result;
      KeyOrder(OriginKey);
      result := SortBy(result, ByKey(OriginKey));
      forall r
        ensures r in result <==> r in found
      {
        assert r in multiset(result) <==> r in multiset(found);
      }
      StillNoRepeats(found, result);
    }
  }

  lemma OriginsOf(v: OriginView, r: Resolved)
    requires r in ResolvedBy(v)
    ensures var ns, names := r.original.id.namespace, NamesIn(v.names, r.original.id.namespace);
            && ns in v.namespaces.value && r.original.id.name in names
            && r.destination == NsName(v.namespaces.value[ns], names[r.original.id.name])
            && v.read(r.original.id).Got? && r.original == v.read(r.original.id).o.(id := r.original.id)
  {
  }

  /** However the maps were traversed, two resolutions of one view are the same list. */
  lemma CanonicalOrder(v: OriginView, xs: seq<Resolved>, ys: seq<Resolved>)
    requires v.namespaces.Some? ==> forall ns | ns in v.namespaces.value :: SlashFree(ns)
    requires IsResolution(v, xs) && IsResolution(v, ys)
    ensures xs == ys
  {
    SameElements(xs, ys);
    forall x, y | x in xs && y in xs && OriginKey(x) == OriginKey(y)
      ensures x == y
    {
      OriginsOf(v, x);
      OriginsOf(v, y);
      KeyStringInjective(x.original.id, y.original.id);
    }
    SortedByKeyUnique(xs, ys, OriginKey);
  }

  // ---------------------------------------------------------------- annotations

  lemma {:induction false} DigitsNonEmpty(n: nat)
    ensures |Digits(n)| >= 1
    ensures n >= 10 ==> |Digits(n)| >= 2
  {
    if n >= 10 {
      DigitsNonEmpty(n / 10);
    }
  }

  lemma {:induction false} DigitsInjective(m: nat, n: nat)
    requires Digits(m) == Digits(n)
    ensures m == n
  {
    DigitsNonEmpty(m);
    DigitsNonEmpty(n);
    var s := "0123456789";
    assert forall i, j | 0 <= i < j < 10 :: s[i] != s[j];
    if m >= 10 {
      var a, b := Digits(m / 10), Digits(n / 10);
      assert Digits(m) == a + [s[m % 10]] && Digits(n) == b + [s[n % 10]];
      assert Digits(m)[..|Digits(m)| - 1] == a && Digits(n)[..|Digits(n)| - 1] == b;
      assert Digits(m)[|Digits(m)| - 1] == s[m % 10] && Digits(n)[|Digits(n)| - 1] == s[n % 10];
      DigitsInjective(m / 10, n / 10);
    }
  }

  lemma {:induction false} DesiredEntry(identifier: string, ts: seq<Attempt>, i: nat)
    requires i < |ts|
    ensures var k := AnnotationPrefix(identifier) + Digits(i);
            k in Desired(identifier, ts) && Desired(identifier, ts)[k] == Describe(ts[i])
    decreases |ts|
  {
    var prefix, n := AnnotationPrefix(identifier), |ts|-1;
    if i < n {
      DesiredEntry(identifier, ts[..n], i);
      if prefix + Digits(i) == prefix + Digits(n) {
        SuffixEqual(prefix, Digits(i), Digits(n));
        DigitsInjective(i, n);
      }
    }
  }

  /** One entry per resolved object, under its number and nothing else. */
  lemma {:induction false} DesiredEntries(identifier: string, ts: seq<Attempt>)
    ensures forall i: nat | i < |ts| ::
              var k := AnnotationPrefix(identifier) + Digits(i);
              k in Desired(identifier, ts) && Desired(identifier, ts)[k] == Describe(ts[i])
    ensures forall k | k in Desired(identifier, ts) ::
              AnnotationPrefix(identifier) <= k && exists i: nat | i < |ts| :: k == AnnotationPrefix(identifier) + Digits(i)
    decreases |ts|
  {
    forall i: nat | i < |ts|
      ensures AnnotationPrefix(identifier) + Digits(i) in Desired(identifier, ts)
      ensures Desired(identifier, ts)[AnnotationPrefix(identifier) + Digits(i)] == Describe(ts[i])
    {
      DesiredEntry(identifier, ts, i);
    }
    if ts != [] {
      DesiredEntries(identifier, ts[..|ts|-1]);
    }
  }

  lemma SuffixEqual(p: string, a: string, b: string)
    requires p + a == p + b
    ensures a == b
  {
    assert (p + a)[|p|..] == a && (p + b)[|p|..] == b;
  }

  /** Entries of two different dot-free identifiers never share a prefix. */
  lemma PrefixesApart(i1: string, i2: string, k: string)
    requires DotFree(i1) && DotFree(i2)
    requires AnnotationPrefix(i1) <= k && AnnotationPrefix(i2) <= k
    ensures i1 == i2
  {
    var n := |RELATED_PREFIX|;
    assert k[n..][..|i1|] == AnnotationPrefix(i1)[n..][..|i1|] == i1;
    assert k[n..][..|i2|] == AnnotationPrefix(i2)[n..][..|i2|] == i2;
    assert k[n + |i1|] == '.' && k[n + |i2|] == '.';
  }

  /** The entries under the prefix are replaced, and all others stay. */
  lemma UnderPrefixReplaced(have: map<string, string>, prefix: string, want: map<string, string>)
    requires forall k | k in want :: prefix <= k
    ensures var next := (map k | k in have && !(prefix <= k) :: have[k]) + want;
            && (forall k | prefix <= k :: Lookup(next, k) == Lookup(want, k))
            && (forall k | !(prefix <= k) :: Lookup(next, k) == Lookup(have, k))
            && (map k | k in next && !(prefix <= k) :: next[k]) + want == next
  {
  }

  /**
   Under the rule's prefix the annotations become exactly the desired ones; everything else stays;
   and doing it again changes nothing.
   */
  lemma RememberedFramed(annotations: map<string, string>, identifier: string, ts: seq<Attempt>)
    ensures var next := Remembered(annotations, identifier, ts);
            && (forall k | AnnotationPrefix(identifier) <= k :: Lookup(next, k) == Lookup(Desired(identifier, ts), k))
            && (forall k | !(AnnotationPrefix(identifier) <= k) :: Lookup(next, k) == Lookup(annotations, k))
            && Remembered(next, identifier, ts) == next
  {
    DesiredEntries(identifier, ts);
    UnderPrefixReplaced(annotations, AnnotationPrefix(identifier), Desired(identifier, ts));
  }

  /** The entries of other dot-free identifiers are not touched. */
  lemma OtherIdentifiersKept(annotations: map<string, string>, identifier: string, other: string, ts: seq<Attempt>, k: string)
    requires DotFree(identifier) && DotFree(other) && other != identifier
    requires AnnotationPrefix(other) <= k
    ensures Lookup(Remembered(annotations, identifier, ts), k) == Lookup(annotations, k)
  {
    RememberedFramed(annotations, identifier, ts);
    if AnnotationPrefix(identifier) <= k {
      PrefixesApart(identifier, other, k);
    }
  }

  lemma PatchToNext(have: map<string, string>, next: map<string, string>)
    ensures PatchMap(have, have, next) == next
  {
  }

  /** A pass that has just remembered its objects finds nothing to change the next time; an empty one changes nothing. */
  lemma RememberIdempotent(w: RelWorld, identifier: string, view: Object, ts: seq<Attempt>)
    requires w.primary == Some(view)
    ensures var o := Remember(w, identifier, view, ts, false);
            && !o.result.Failed? && o.world.primary.Some?
            && (ts == [] ==> o == RelOutcome(w, Done, {}))
            && (ts != [] ==> o.world.primary.value.annotations == Remembered(view.annotations, identifier, ts))
            && Remember(o.world, identifier, o.world.primary.value, ts, false) == RelOutcome(o.world, Done, {})
  {
    RememberedFramed(view.annotations, identifier, ts);
    PatchToNext(view.annotations, Remembered(view.annotations, identifier, ts));
  }
}
