/** Names the agent prints, and later has to take apart or keep apart. */
module SchemaNames {
  import opened Options

  predicate DotFree(s: string) {
    '.' !in s
  }

  /** The name of a schema: the checksum of the definition, its plural and its API group. */
  function SchemaName(checksum: string, plural: string, group: string): string {
    "v" + checksum + "." + plural + "." + group
  }

  /** Splits at the first dot. */
  function Cut(s: string): (r: Option<(string, string)>)
    ensures r.None? <==> DotFree(s)
    ensures r.Some? ==> DotFree(r.value.0) && s == r.value.0 + "." + r.value.1
  {
    if s == "" then None
    else if s[0] == '.' then
      assert s == "" + "." + s[1..];
      Some(("", s[1..]))
    else
      var rest := Cut(s[1..]);
      if rest.None? then None
      else
        assert s == [s[0]] + rest.value.0 + "." + rest.value.1;
        Some(([s[0]] + rest.value.0, rest.value.1))
  }

  datatype Parsed = Parsed(version: string, resource: string, group: string)

  /** At most three parts: the group may contain further dots. */
  function ParseSchemaName(name: string): Option<Parsed> {
    match Cut(name)
    case None => None
    case Some((version, rest)) =>
      match Cut(rest)
      case None => None
      case Some((resource, group)) => Some(Parsed(version, resource, group))
  }

  /** What comes before the first dot is determined by the string. */
  lemma CutUnique(a: string, x: string)
    requires DotFree(a)
    ensures Cut(a + "." + x) == Some((a, x))
  {
    var s := a + "." + x;
    assert s[|a|] == '.';
    var (b, y) := Cut(s).value;
    assert s[|b|] == '.';
    assert s[..|a|] == a && s[..|b|] == b;
    assert |a| == |b|;
    assert s[|a| + 1..] == x && s[|a| + 1..] == y;
  }

  /** A printed name is parsed back into the same plural and group exactly when the plural has no dot. */
  lemma SchemaNameRoundTrip(checksum: string, plural: string, group: string)
    requires DotFree(checksum)
    ensures ParseSchemaName(SchemaName(checksum, plural, group)) == Some(Parsed("v" + checksum, plural, group))
            <==> DotFree(plural)
  {
    var version := "v" + checksum;
    assert SchemaName(checksum, plural, group) == version + "." + (plural + "." + group);
    CutUnique(version, plural + "." + group);
    if DotFree(plural) {
      CutUnique(plural, group);
    }
  }

  /** The group/resource of a schema name; names that cannot be parsed have none. */
  function GroupResource(name: string): (string, string) {
    match ParseSchemaName(name)
    case None => ("", "")
    case Some(p) => (p.group, p.resource)
  }

  /** The printed group/resource that schemas are compared by. */
  function ResourceGroup(name: string): string {
    var (group, resource) := GroupResource(name);
    if group == "" then resource else resource + "." + group
  }

  lemma ResourcesDotFree(name: string)
    ensures DotFree(GroupResource(name).1)
  {
  }

  /** Printing loses nothing: schemas compare equal exactly when group and resource are equal. */
  lemma ResourceGroupInjective(a: string, b: string)
    ensures ResourceGroup(a) == ResourceGroup(b) <==> GroupResource(a) == GroupResource(b)
  {
    ResourcesDotFree(a);
    ResourcesDotFree(b);
    var (g, r) := GroupResource(a);
    var (h, s) := GroupResource(b);
    if g != "" {
      CutUnique(r, g);
    }
    if h != "" {
      CutUnique(s, h);
    }
  }
}

/** Names of copies on the service cluster. */
module Naming {
  import opened Objects

  const HASH_LENGTH := 20

  datatype Scope = NamespaceScoped | ClusterScoped

  /** The default scheme: the cluster as namespace, both hashes as name. */
  function DefaultName(hash: Hash, cluster: string, id: NsName): NsName {
    NsName(cluster, hash(id.namespace) + "-" + hash(id.name))
  }

  function InScope(scope: Scope, name: NsName): NsName {
    if scope.ClusterScoped? then NsName("", name.name) else name
  }

  predicate FixedLength(hash: Hash, id: NsName) {
    |hash(id.namespace)| == HASH_LENGTH && |hash(id.name)| == HASH_LENGTH
  }

  predicate NoCollision(hash: Hash, a: NsName, b: NsName) {
    && (hash(a.namespace) == hash(b.namespace) ==> a.namespace == b.namespace)
    && (hash(a.name) == hash(b.name) ==> a.name == b.name)
  }

  /**
   By default, copies of different objects get different names on a namespaced API. On a
   cluster-scoped one this is so exactly when they differ in more than their cluster.
   */
  lemma DefaultNamesDistinct(hash: Hash, scope: Scope, c1: string, a: NsName, c2: string, b: NsName)
    requires FixedLength(hash, a) && FixedLength(hash, b) && NoCollision(hash, a, b)
    ensures InScope(scope, DefaultName(hash, c1, a)) == InScope(scope, DefaultName(hash, c2, b))
            <==> a == b && (scope.NamespaceScoped? ==> c1 == c2)
  {
    var x, y := DefaultName(hash, c1, a).name, DefaultName(hash, c2, b).name;
    if x == y {
      assert x[..HASH_LENGTH] == hash(a.namespace) && y[..HASH_LENGTH] == hash(b.namespace);
      assert x[HASH_LENGTH + 1..] == hash(a.name) && y[HASH_LENGTH + 1..] == hash(b.name);
    }
  }

  // ---------------------------------------------------------------- legacy placeholders

  datatype Rule = Rule(old_: string, new_: string)

  const CLUSTER := "$remoteClusterName"
  const NAMESPACE_HASH := "$remoteNamespaceHash"
  const NAMESPACE := "$remoteNamespace"
  const NAME_HASH := "$remoteNameHash"
  const NAME := "$remoteName"

  function Placeholders(hash: Hash, cluster: string, id: NsName): seq<Rule> {
    [Rule(CLUSTER, cluster), Rule(NAMESPACE_HASH, hash(id.namespace)), Rule(NAMESPACE, id.namespace),
     Rule(NAME_HASH, hash(id.name)), Rule(NAME, id.name)]
  }

  /** The first rule, in the order given, that applies at the start of the text; |rules| if none. */
  function FirstMatch(rules: seq<Rule>, s: string): (i: nat)
    ensures i <= |rules|
    ensures i < |rules| ==> rules[i].old_ <= s
    ensures forall j | 0 <= j < i :: !(rules[j].old_ <= s)
    decreases |rules|
  {
    if rules == [] then 0
    else if rules[0].old_ <= s then 0
    else 1 + FirstMatch(rules[1..], s)
  }

  /** A rule that applies and is at least as long as every other that does. */
  predicate IsLongestMatch(rules: seq<Rule>, s: string, i: nat) {
    && i <= |rules|
    && (i == |rules| ==> forall j | 0 <= j < |rules| :: !(rules[j].old_ <= s))
    && (i < |rules| ==> rules[i].old_ <= s && forall j | 0 <= j < |rules| && rules[j].old_ <= s :: |rules[j].old_| <= |rules[i].old_|)
  }

  predicate NonEmpty(rules: seq<Rule>) {
    forall i | 0 <= i < |rules| :: rules[i].old_ != ""
  }

  predicate OldsDistinct(rules: seq<Rule>) {
    forall i, j | 0 <= i < j < |rules| :: rules[i].old_ != rules[j].old_
  }

  /** No rule hides a later, longer one. */
  predicate LongerFirst(rules: seq<Rule>) {
    forall i, j | 0 <= i < j < |rules| :: !(rules[i].old_ <= rules[j].old_)
  }

  /** Replaces from left to right in one pass, without looking at replaced text again. */
  function Replace(rules: seq<Rule>, s: string): string
    requires NonEmpty(rules)
    decreases |s|
  {
    if s == "" then ""
    else
      var i := FirstMatch(rules, s);
      if i < |rules| then rules[i].new_ + Replace(rules, s[|rules[i].old_|..])
      else [s[0]] + Replace(rules, s[1..])
  }

  /** The text is the result of some longest-match replacement. */
  predicate ReplacesLongest(rules: seq<Rule>, s: string, out: string)
    requires NonEmpty(rules)
    decreases |s|
  {
    if s == "" then out == ""
    else
      exists i: nat | i <= |rules| :: IsLongestMatch(rules, s, i) &&
        if i < |rules| then rules[i].new_ <= out && ReplacesLongest(rules, s[|rules[i].old_|..], out[|rules[i].new_|..])
        else out != "" && out[0] == s[0] && ReplacesLongest(rules, s[1..], out[1..])
  }

  /** Two rules that apply at one place: the shorter is a prefix of the longer. */
  lemma MatchesNest(a: string, b: string, s: string)
    requires a <= s && b <= s && |a| <= |b|
    ensures a <= b
  {
  }

  lemma FirstIsLongest(rules: seq<Rule>, s: string)
    requires LongerFirst(rules)
    ensures IsLongestMatch(rules, s, FirstMatch(rules, s))
  {
    var i := FirstMatch(rules, s);
    if i < |rules| {
      forall j | 0 <= j < |rules| && rules[j].old_ <= s
        ensures |rules[j].old_| <= |rules[i].old_|
      {
        if |rules[i].old_| < |rules[j].old_| {
          MatchesNest(rules[i].old_, rules[j].old_, s);
        }
      }
    }
  }

  /** Taking the first applicable rule is taking the longest, exactly when no rule hides a longer one. */
  lemma FirstMatchIsLongestIff(rules: seq<Rule>)
    requires OldsDistinct(rules)
    ensures (forall s :: IsLongestMatch(rules, s, FirstMatch(rules, s))) <==> LongerFirst(rules)
  {
    if LongerFirst(rules) {
      forall s
        ensures IsLongestMatch(rules, s, FirstMatch(rules, s))
      {
        FirstIsLongest(rules, s);
      }
    }
    if !LongerFirst(rules) {
      var i, j :| 0 <= i < j < |rules| && rules[i].old_ <= rules[j].old_;
      var s := rules[j].old_;
      var m := FirstMatch(rules, s);
      assert m <= i;
      assert rules[m].old_ != rules[j].old_ && rules[m].old_ <= s;
      assert |rules[m].old_| < |s|;
      assert !IsLongestMatch(rules, s, FirstMatch(rules, s));
    }
  }

  lemma {:induction false} ReplaceIsLongest(rules: seq<Rule>, s: string)
    requires NonEmpty(rules) && LongerFirst(rules)
    ensures ReplacesLongest(rules, s, Replace(rules, s))
    decreases |s|
  {
    if s != "" {
      var i := FirstMatch(rules, s);
      FirstIsLongest(rules, s);
      var out := Replace(rules, s);
      if i < |rules| {
        ReplaceIsLongest(rules, s[|rules[i].old_|..]);
        assert out[|rules[i].new_|..] == Replace(rules, s[|rules[i].old_|..]);
      } else {
        ReplaceIsLongest(rules, s[1..]);
        assert out[1..] == Replace(rules, s[1..]);
      }
    }
  }

  /** Every legacy pattern is filled in as if the longest placeholder had been looked for. */
  lemma LegacyNaming(hash: Hash, cluster: string, id: NsName, pattern: string)
    ensures NonEmpty(Placeholders(hash, cluster, id))
    ensures ReplacesLongest(Placeholders(hash, cluster, id), pattern, Replace(Placeholders(hash, cluster, id), pattern))
  {
    var rules := Placeholders(hash, cluster, id);
    assert CLUSTER[7] == 'C' && NAMESPACE[7] == 'N' && NAME[7] == 'N' && NAMESPACE_HASH[7] == 'N' && NAME_HASH[7] == 'N';
    assert NAMESPACE[11] == 's' && NAMESPACE_HASH[11] == 's' && NAME_HASH[11] == 'H';
    assert |NAMESPACE_HASH| == 20 && |NAMESPACE| == 16 && |NAME_HASH| == 15 && |NAME| == 11;
    assert LongerFirst(rules);
    ReplaceIsLongest(rules, pattern);
  }
}
