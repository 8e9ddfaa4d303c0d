/**
 The projection of a CustomResourceDefinition into kcp: selecting versions, making sure that one of
 them is the storage version, renaming and sorting them, renaming the API itself.
 */
module Projection {
  import opened Options
  import opened Sorting

  datatype Version = Version(name: string, served: bool, storage: bool, schema: string)

  datatype Names = Names(kind: string, listKind: string, singular: string, plural: string)

  datatype Crd = Crd(name: string, group: string, names: Names, versions: seq<Version>)

  /** Which versions are published: the deprecated single version, a list of versions, or all. */
  datatype Source = Source(version: string, versions: seq<string>)

  datatype Rules = Rules(group: string, version: string, versions: map<string, string>, kind: string, plural: string)

  datatype Published = Published(source: Source, projection: Option<Rules>)

  /** Case folding of names and the Kubernetes order of version names. */
  datatype Env = Env(lower: string -> string, le: (string, string) -> bool)

  // ---------------------------------------------------------------- specification

  predicate Selects(src: Source, name: string) {
    if src.version != "" then name == src.version
    else src.versions != [] ==> name in src.versions
  }

  function Selected(vs: seq<Version>, src: Source): seq<Version> {
    if vs == [] then []
    else
      var init, v := vs[..|vs|-1], vs[|vs|-1];
      Selected(init, src) + if Selects(src, v.name) then [v] else []
  }

  /** The position of the last served version, or -1. */
  function LastServed(vs: seq<Version>): (i: int)
    ensures -1 <= i < |vs|
    ensures i >= 0 ==> vs[i].served
    ensures forall j | i < j < |vs| :: !vs[j].served
  {
    if vs == [] then -1
    else if vs[|vs|-1].served then |vs|-1
    else LastServed(vs[..|vs|-1])
  }

  predicate HasStorage(vs: seq<Version>) {
    exists i | 0 <= i < |vs| :: vs[i].storage
  }

  /** The latest served version becomes the storage version where none is left. */
  function WithStorage(vs: seq<Version>): seq<Version>
    requires LastServed(vs) >= 0
  {
    if HasStorage(vs) then vs
    else
      var i := LastServed(vs);
      vs[i := vs[i].(storage := true)]
  }

  function NewName(m: map<string, string>, name: string): string {
    if name in m && m[name] != "" then m[name] else name
  }

  function Renamed(v: Version, m: map<string, string>): Version {
    v.(name := NewName(m, v.name))
  }

  function AllRenamed(vs: seq<Version>, m: map<string, string>): (r: seq<Version>)
    ensures |r| == |vs| && forall i | 0 <= i < |vs| :: r[i] == Renamed(vs[i], m)
  {
    if vs == [] then [] else AllRenamed(vs[..|vs|-1], m) + [Renamed(vs[|vs|-1], m)]
  }

  predicate NamesDistinct(vs: seq<Version>) {
    forall i, j | 0 <= i < j < |vs| :: vs[i].name != vs[j].name
  }

  /** The two ways of renaming versions: all through a map, or the only one to a given name. */
  predicate UsesMap(p: Option<Rules>) {
    p.Some? && p.value.version == "" && p.value.versions != map[]
  }

  predicate UsesSingle(p: Option<Rules>) {
    p.Some? && p.value.version != ""
  }

  /** A version as it is published. */
  function AsPublished(p: Option<Rules>, v: Version): Version {
    if UsesSingle(p) then v.(name := p.value.version)
    else if UsesMap(p) then Renamed(v, p.value.versions)
    else v
  }

  function NewGroup(crd: Crd, pub: Published): string {
    if pub.projection.Some? && pub.projection.value.group != "" then pub.projection.value.group else crd.group
  }

  function NewKind(crd: Crd, pub: Published): string {
    if pub.projection.Some? && pub.projection.value.kind != "" then pub.projection.value.kind else crd.names.kind
  }

  predicate CanProject(crd: Crd, pub: Published) {
    && !(pub.source.version != "" && pub.source.versions != [])
    && var vs := Selected(crd.versions, pub.source);
    && LastServed(vs) >= 0
    && (UsesSingle(pub.projection) ==> |vs| == 1)
    && (UsesMap(pub.projection) ==> NamesDistinct(AllRenamed(vs, pub.projection.value.versions)))
  }

  function ByName(env: Env): (Version, Version) -> bool {
    (v: Version, w: Version) => env.le(v.name, w.name)
  }

  // ---------------------------------------------------------------- the pipeline

  class Definition {
    var group: string
    var name: string
    var names: Names
    var versions: seq<Version>

    constructor (crd: Crd)
      ensures group == crd.group && name == crd.name && names == crd.names && versions == crd.versions
    {
      group, name, names, versions := crd.group, crd.name, crd.names, crd.versions;
    }

    method StripUnwantedVersions(src: Source) returns (ok: bool)
      modifies `versions
      ensures ok <==> !(src.version != "" && src.versions != []) && Selected(old(versions), src) != []
      ensures ok ==> versions == Selected(old(versions), src)
    {
      if src.version != "" && src.versions != [] {
        return false;
      }
      var kept := [];
      for i := 0 to |versions|
        invariant versions == old(versions)
        invariant kept == Selected(versions[..i], src)
      {
        assert versions[..i + 1][..i] == versions[..i];
        if Selects(src, versions[i].name) {
          kept := kept + [versions[i]];
        }
      }
      assert versions[..|versions|] == versions;
      versions := kept;
      ok := |versions| != 0;
    }

    method AdjustStorageVersion() returns (ok: bool)
      modifies `versions
      ensures ok <==> LastServed(old(versions)) >= 0
      ensures versions == if ok then WithStorage(old(versions)) else old(versions)
    {
      var hasStorage, latestServed := false, -1;
      for i := 0 to |versions|
        invariant hasStorage == HasStorage(versions[..i])
        invariant latestServed == LastServed(versions[..i])
        invariant versions == old(versions)
      {
        assert versions[..i + 1][..i] == versions[..i];
        assert versions[..i + 1][i] == versions[i];
        if versions[i].storage {
          hasStorage := true;
        }
        if versions[i].served {
          latestServed := i;
        }
      }
      assert versions[..|versions|] == versions;
      if latestServed < 0 {
        return false;
      }
      if !hasStorage {
        versions := versions[latestServed := versions[latestServed].(storage := true)];
      }
      ok := true;
    }

    method RenameVersions(m: map<string, string>)
      modifies `versions
      ensures versions == AllRenamed(old(versions), m)
    {
      for i := 0 to |versions|
        invariant |versions| == |old(versions)|
        invariant forall j | 0 <= j < i :: versions[j] == Renamed(old(versions)[j], m)
        invariant forall j | i <= j < |versions| :: versions[j] == old(versions)[j]
      {
        var oldVersion := versions[i].name;
        if oldVersion in m && m[oldVersion] != "" {
          versions := versions[i := versions[i].(name := m[oldVersion])];
        }
      }
    }

    method UniqueVersions() returns (ok: bool)
      ensures ok <==> NamesDistinct(versions)
    {
      var known := {};
      for i := 0 to |versions|
        invariant forall n :: n in known <==> exists j | 0 <= j < i :: versions[j].name == n
        invariant NamesDistinct(versions[..i])
      {
        if versions[i].name in known {
          ghost var j :| 0 <= j < i && versions[j].name == versions[i].name;
          return false;
        }
        known := known + {versions[i].name};
      }
      assert versions[..|versions|] == versions;
      ok := true;
    }

    method ProjectVersions(p: Option<Rules>, env: Env) returns (ok: bool)
      requires TotalPreorder(env.le)
      modifies `versions
      ensures ok <==> (UsesSingle(p) ==> |old(versions)| == 1)
                      && (UsesMap(p) ==> NamesDistinct(AllRenamed(old(versions), p.value.versions)))
      ensures ok && UsesSingle(p) ==> versions == [old(versions)[0].(name := p.value.version)]
      ensures ok && UsesMap(p) ==> Sorted(versions, ByName(env)) && multiset(versions) == multiset(AllRenamed(old(versions), p.value.versions))
      ensures ok && !UsesSingle(p) && !UsesMap(p) ==> versions == old(versions)
    {
      ok := true;
      if UsesSingle(p) {
        if |versions| != 1 {
          return false;
        }
        versions := [versions[0].(name := p.value.version)];
      } else if UsesMap(p) {
        RenameVersions(p.value.versions);
        ok := UniqueVersions();
        if ok {
          ByNameOrders(env);
          versions := SortBy(versions, ByName(env));
        }
      }
    }

    method ProjectNames(p: Option<Rules>, env: Env)
      modifies `group, `name, `names
      ensures p.None? ==> group == old(group) && names == old(names) && name == old(name)
      ensures p.Some? ==>
                && group == (if p.value.group != "" then p.value.group else old(group))
                && names.kind == (if p.value.kind != "" then p.value.kind else old(names).kind)
                && names.plural == (if p.value.plural != "" then p.value.plural
                                    else if p.value.kind != "" then env.lower(p.value.kind) + "s" else old(names).plural)
                && names.listKind == (if p.value.kind != "" then p.value.kind + "List" else old(names).listKind)
                && names.singular == (if p.value.kind != "" then env.lower(p.value.kind) else old(names).singular)
                && name == names.plural + "." + group
    {
      if p.None? {
        return;
      }
      var r := p.value;
      if r.group != "" {
        group := r.group;
      }
      if r.kind != "" {
        names := names.(kind := r.kind, listKind := r.kind + "List");
        names := names.(singular := env.lower(names.kind));
        names := names.(plural := names.singular + "s");
      }
      if r.plural != "" {
        names := names.(plural := r.plural);
      }
      name := names.plural + "." + group;
    }
  }

  lemma ByNameOrders(env: Env)
    requires TotalPreorder(env.le)
    ensures TotalPreorder(ByName(env))
  {
    forall v, w
      ensures ByName(env)(v, w) || ByName(env)(w, v)
    {
      assert env.le(v.name, w.name) || env.le(w.name, v.name);
    }
    forall u, v, w | ByName(env)(u, v) && ByName(env)(v, w)
      ensures ByName(env)(u, w)
    {
      assert env.le(u.name, v.name) && env.le(v.name, w.name);
    }
  }

  /** Projects a copy of the definition. */
  method ProjectCRD(crd: Crd, pub: Published, env: Env) returns (result: Option<Crd>)
    requires TotalPreorder(env.le)
    ensures result.Some? <==> CanProject(crd, pub)
    ensures result.Some? ==> Projects(crd, pub, env, result.value)
  {
    var d := new Definition(crd);
    var ok := d.StripUnwantedVersions(pub.source);
    if !ok {
      return None;
    }
    ghost var selected := d.versions;
    ok := d.AdjustStorageVersion();
    if !ok {
      return None;
    }
    RenamingIgnoresStorage(selected, pub.projection);
    ok := d.ProjectVersions(pub.projection, env);
    if !ok {
      return None;
    }
    d.ProjectNames(pub.projection, env);
    result := Some(Crd(d.name, d.group, d.names, d.versions));
  }

  lemma RenamingIgnoresStorage(vs: seq<Version>, p: Option<Rules>)
    requires LastServed(vs) >= 0
    ensures UsesMap(p) ==>
              NamesDistinct(AllRenamed(WithStorage(vs), p.value.versions)) == NamesDistinct(AllRenamed(vs, p.value.versions))
  {
    if UsesMap(p) {
      var a, b := AllRenamed(WithStorage(vs), p.value.versions), AllRenamed(vs, p.value.versions);
      forall i | 0 <= i < |vs|
        ensures a[i].name == b[i].name
      {
        assert WithStorage(vs)[i].name == vs[i].name;
      }
      DistinctByNames(a, b);
      DistinctByNames(b, a);
    }
  }

  lemma DistinctByNames(a: seq<Version>, b: seq<Version>)
    requires |a| == |b| && forall i | 0 <= i < |a| :: a[i].name == b[i].name
    ensures NamesDistinct(a) ==> NamesDistinct(b)
  {
  }

  /** What the pipeline makes of a definition it can project. */
  ghost predicate Projects(crd: Crd, pub: Published, env: Env, out: Crd) {
    var vs := Selected(crd.versions, pub.source);
    && LastServed(vs) >= 0
    && (if UsesSingle(pub.projection) then |vs| == 1 && out.versions == [WithStorage(vs)[0].(name := pub.projection.value.version)]
        else if UsesMap(pub.projection) then
          && Sorted(out.versions, ByName(env))
          && multiset(out.versions) == multiset(AllRenamed(WithStorage(vs), pub.projection.value.versions))
          && NamesDistinct(AllRenamed(WithStorage(vs), pub.projection.value.versions))
        else out.versions == WithStorage(vs))
    && out.group == NewGroup(crd, pub) && out.names.kind == NewKind(crd, pub)
  }

  // ---------------------------------------------------------------- what is published

  /** No two versions are storage versions. */
  predicate AtMostOneStorage(vs: seq<Version>) {
    forall u, v | u in vs && v in vs && u.storage && v.storage :: u == v
  }

  predicate OneStorage(vs: seq<Version>, v: Version) {
    v in vs && v.storage && forall u | u in vs && u.storage :: u == v
  }

  /** The storage version to be: the original one if it was selected, else the last served one. */
  predicate IsChosen(vs: seq<Version>, v: Version) {
    v in vs && if HasStorage(vs) then v.storage else LastServed(vs) >= 0 && v == vs[LastServed(vs)]
  }

  function AllPublished(p: Option<Rules>, vs: seq<Version>): seq<Version> {
    seq(|vs|, i requires 0 <= i < |vs| => AsPublished(p, vs[i]))
  }

  lemma {:induction false} SelectedElements(vs: seq<Version>, src: Source)
    ensures forall v :: v in Selected(vs, src) <==> v in vs && Selects(src, v.name)
    ensures NamesDistinct(vs) ==> NamesDistinct(Selected(vs, src))
  {
    if vs != [] {
      var init := vs[..|vs|-1];
      SelectedElements(init, src);
      assert vs == init + [vs[|vs|-1]];
      assert NamesDistinct(vs) ==> NamesDistinct(init);
    }
  }

  /** After the adjustment there is exactly one storage version, and it is the chosen one. */
  lemma WithStorageChosen(vs: seq<Version>) returns (v: Version)
    requires LastServed(vs) >= 0 && NamesDistinct(vs) && AtMostOneStorage(vs)
    ensures IsChosen(vs, v)
    ensures OneStorage(WithStorage(vs), v.(storage := true))
  {
    var out := WithStorage(vs);
    if HasStorage(vs) {
      var i :| 0 <= i < |vs| && vs[i].storage;
      v := vs[i];
      assert v.(storage := true) == v;
    } else {
      var i := LastServed(vs);
      v := vs[i];
      assert out[i] == v.(storage := true);
    }
  }

  lemma PublishedSingle(p: Option<Rules>, vs: seq<Version>)
    requires UsesSingle(p) && |vs| == 1
    ensures AllPublished(p, vs) == [vs[0].(name := p.value.version)]
  {
  }

  lemma PublishedMapped(p: Option<Rules>, vs: seq<Version>)
    requires UsesMap(p)
    ensures AllPublished(p, vs) == AllRenamed(vs, p.value.versions)
  {
  }

  lemma PublishedSame(p: Option<Rules>, vs: seq<Version>)
    requires !UsesMap(p) && !UsesSingle(p)
    ensures AllPublished(p, vs) == vs
  {
  }

  /** The published list is a permutation of the adjusted selection, renamed one by one. */
  lemma PublishedPermutation(crd: Crd, pub: Published, env: Env, out: Crd)
    requires Projects(crd, pub, env, out)
    ensures multiset(out.versions) == multiset(AllPublished(pub.projection, WithStorage(Selected(crd.versions, pub.source))))
  {
    var vs := WithStorage(Selected(crd.versions, pub.source));
    if UsesSingle(pub.projection) {
      PublishedSingle(pub.projection, vs);
    } else if UsesMap(pub.projection) {
      PublishedMapped(pub.projection, vs);
    } else {
      PublishedSame(pub.projection, vs);
    }
  }

  lemma WithStorageNames(vs: seq<Version>)
    requires LastServed(vs) >= 0
    ensures NamesDistinct(vs) ==> NamesDistinct(WithStorage(vs))
  {
    if NamesDistinct(vs) {
      DistinctByNames(vs, WithStorage(vs));
    }
  }

  lemma PublishedDistinct(crd: Crd, pub: Published, env: Env, out: Crd)
    requires Projects(crd, pub, env, out)
    requires NamesDistinct(crd.versions)
    ensures NamesDistinct(AllPublished(pub.projection, WithStorage(Selected(crd.versions, pub.source))))
  {
    var sel := Selected(crd.versions, pub.source);
    SelectedElements(crd.versions, pub.source);
    WithStorageNames(sel);
    if UsesMap(pub.projection) {
      PublishedMapped(pub.projection, WithStorage(sel));
    } else if !UsesSingle(pub.projection) {
      PublishedSame(pub.projection, WithStorage(sel));
    }
  }

  lemma PermutedDistinct(vs: seq<Version>, out: seq<Version>)
    requires NamesDistinct(vs) && multiset(vs) == multiset(out)
    ensures NamesDistinct(out)
  {
    assert NoRepeats(vs);
    StillNoRepeats(vs, out);
    forall i, j | 0 <= i < j < |out|
      ensures out[i].name != out[j].name
    {
      assert out[i] in multiset(vs) && out[j] in multiset(vs);
    }
  }

  /**
   Every definition the projection puts out has a served version, exactly one storage version (the
   original one if selected, else the last served one), distinct version names, and is sorted when
   versions are mapped.
   */
  lemma ProjectionSound(crd: Crd, pub: Published, env: Env, out: Crd) returns (v: Version)
    requires Projects(crd, pub, env, out)
    requires NamesDistinct(crd.versions) && AtMostOneStorage(crd.versions)
    ensures NamesDistinct(out.versions)
    ensures exists u :: u in out.versions && u.served
    ensures IsChosen(Selected(crd.versions, pub.source), v)
    ensures OneStorage(out.versions, AsPublished(pub.projection, v.(storage := true)))
    ensures UsesMap(pub.projection) ==> Sorted(out.versions, ByName(env))
  {
    var sel := Selected(crd.versions, pub.source);
    var vs, p := WithStorage(sel), pub.projection;
    var all := AllPublished(p, vs);
    SelectedElements(crd.versions, pub.source);
    PublishedPermutation(crd, pub, env, out);
    PublishedDistinct(crd, pub, env, out);
    PermutedDistinct(all, out.versions);
    v := WithStorageChosen(sel);
    forall u
      ensures u in out.versions <==> u in all
    {
      assert u in multiset(out.versions) <==> u in multiset(all);
    }
    assert all[LastServed(sel)].served;
    PublishedStorage(p, vs, v.(storage := true));
  }

  lemma PublishedStorage(p: Option<Rules>, vs: seq<Version>, v: Version)
    requires OneStorage(vs, v)
    ensures OneStorage(AllPublished(p, vs), AsPublished(p, v))
  {
    var all := AllPublished(p, vs);
    var i :| 0 <= i < |vs| && vs[i] == v;
    assert all[i] == AsPublished(p, v);
    forall u | u in all && u.storage
      ensures u == AsPublished(p, v)
    {
      var j :| 0 <= j < |all| && all[j] == u;
      assert vs[j].storage;
    }
  }

  // ---------------------------------------------------------------- the projected GVK

  datatype Gvk = Gvk(group: string, version: string, kind: string)

  method GetStorageVersion(vs: seq<Version>) returns (name: string)
    ensures forall v | OneStorage(vs, v) :: name == v.name
    ensures !HasStorage(vs) ==> name == ""
  {
    for i := 0 to |vs|
      invariant forall j | 0 <= j < i :: !vs[j].storage
    {
      if vs[i].storage {
        return vs[i].name;
      }
    }
    name := "";
  }

  /** The type under which objects appear in kcp: that of the one storage version. */
  method ProjectedGVK(crd: Crd, pub: Published, env: Env) returns (gvk: Option<Gvk>)
    requires TotalPreorder(env.le)
    ensures gvk.Some? ==> CanProject(crd, pub) && gvk.value.group == NewGroup(crd, pub) && gvk.value.kind == NewKind(crd, pub)
    ensures NamesDistinct(crd.versions) && AtMostOneStorage(crd.versions) && CanProject(crd, pub) ==>
              exists v :: IsChosen(Selected(crd.versions, pub.source), v)
                          && var name := AsPublished(pub.projection, v.(storage := true)).name;
                          if gvk.Some? then gvk.value.version == name else name == ""
  {
    var projected := ProjectCRD(crd, pub, env);
    if projected.None? {
      return None;
    }
    var name := GetStorageVersion(projected.value.versions);
    if NamesDistinct(crd.versions) && AtMostOneStorage(crd.versions) {
      ghost var v := ProjectionSound(crd, pub, env, projected.value);
      assert name == AsPublished(pub.projection, v.(storage := true)).name;
    }
    gvk := if name == "" then None else Some(Gvk(projected.value.group, name, projected.value.names.kind));
  }
}
