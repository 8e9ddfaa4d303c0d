/** Generic optional value. */
module Options {
  datatype Option<+T> = None | Some(value: T)

  function Lookup<K, V>(m: map<K, V>, k: K): Option<V> {
    if k in m then Some(m[k]) else None
  }

  /** Writes an optional value into a map slot: Some stores it, None clears the slot. */
  function Store<K, V>(m: map<K, V>, k: K, v: Option<V>): map<K, V> {
    if v.Some? then m[k := v.value] else m - {k}
  }
}

/**
 JSON documents and the merge patches of section 2 of RFC 7396, as used by the object syncer to
 carry over exactly what changed on the source since the last synchronization.
 */
module MergePatches {
  import opened Options

  datatype Json =
    | Null
    | Bool(b: bool)
    | Num(n: int)
    | Str(s: string)
    | Arr(elems: seq<Json>)
    | Obj(fields: map<string, Json>)

  type Path = seq<string>

  /** The member of an optional document; documents that are not objects have no members. */
  function Field(j: Option<Json>, k: string): Option<Json> {
    if j.Some? && j.value.Obj? then Lookup(j.value.fields, k) else None
  }

  /** What is found when following a path of member names. */
  function At(j: Option<Json>, p: Path): Option<Json>
    decreases |p|
  {
    if p == [] then j else At(Field(j, p[0]), p[1..])
  }

  predicate IsObj(j: Option<Json>) {
    j.Some? && j.value.Obj?
  }

  /** The document itself; an absent one counts as Null, as in RFC 7396. */
  function Doc(j: Option<Json>): Json {
    if j.Some? then j.value else Null
  }

  // ---------------------------------------------------------------- applying a patch

  /** MergePatch(target, patch) of RFC 7396, section 2; Null stands for an undefined target. */
  function MergePatch(target: Json, patch: Json): Json
    decreases patch
  {
    if patch.Obj? then
      var t := if target.Obj? then target.fields else map[];
      Obj(map k | k in t.Keys + patch.fields.Keys && (k in patch.fields ==> !patch.fields[k].Null?) ::
            if k in patch.fields then MergePatch(if k in t then t[k] else Null, patch.fields[k]) else t[k])
    else
      patch
  }

  /** Applying an optional patch to an optional member: a null patch removes the member. */
  function Apply(dest: Option<Json>, patch: Option<Json>): Option<Json> {
    match patch
    case None => dest
    case Some(Null) => None
    case Some(p) => Some(MergePatch(Doc(dest), p))
  }

  // ---------------------------------------------------------------- computing a patch

  /** The smallest merge patch leading from x to y, or None when they are the same. */
  function Diff(x: Option<Json>, y: Option<Json>): Option<Json>
    decreases Doc(y)
  {
    if y.None? then
      if x.None? then None else Some(Null)
    else if IsObj(x) && y.value.Obj? then
      var a, b := x.value.fields, y.value.fields;
      var d := map k | k in a.Keys + b.Keys && (k in b ==> Diff(Lookup(a, k), Some(b[k])).Some?) ::
                 if k in b then Diff(Lookup(a, k), Some(b[k])).value else Null;
      if d == map[] then None else Some(Obj(d))
    else if x == y then
      None
    else
      Some(y.value)
  }

  /** The result of a three-way merge: what changed from last to new is carried over to dest. */
  function ThreeWay(dest: Option<Json>, last: Option<Json>, next: Option<Json>): Option<Json> {
    Apply(dest, Diff(last, next))
  }

  // ---------------------------------------------------------------- member-wise behaviour

  /** A three-way merge towards an object works member by member. */
  lemma {:induction false} ThreeWayField(dest: Option<Json>, last: Option<Json>, next: Option<Json>, k: string)
    requires IsObj(next)
    ensures Field(ThreeWay(dest, last, next), k) == ThreeWay(Field(dest, k), Field(last, k), Field(next, k))
  {
    var b := next.value.fields;
    if IsObj(last) {
      var a := last.value.fields;
      var d := map k | k in a.Keys + b.Keys && (k in b ==> Diff(Lookup(a, k), Some(b[k])).Some?) ::
                 if k in b then Diff(Lookup(a, k), Some(b[k])).value else Null;
      assert Diff(last, next) == if d == map[] then None else Some(Obj(d));
      assert Lookup(d, k) == Diff(Field(last, k), Field(next, k));
    } else {
      assert Diff(last, next) == Some(Obj(b));
    }
  }

  /** The patch is empty exactly when nothing changed. */
  lemma {:induction false} DiffEmptyIffEqual(x: Option<Json>, y: Option<Json>)
    ensures Diff(x, y).None? <==> x == y
    decreases Doc(y)
  {
    if IsObj(x) && IsObj(y) {
      var a, b := x.value.fields, y.value.fields;
      var d := map k | k in a.Keys + b.Keys && (k in b ==> Diff(Lookup(a, k), Some(b[k])).Some?) ::
                 if k in b then Diff(Lookup(a, k), Some(b[k])).value else Null;
      forall k | k in b
        ensures Diff(Lookup(a, k), Some(b[k])).None? <==> Lookup(a, k) == Some(b[k])
      {
        DiffEmptyIffEqual(Lookup(a, k), Some(b[k]));
      }
      if d == map[] {
        forall k | k in a.Keys + b.Keys
          ensures k in a && k in b && a[k] == b[k]
        {
          assert k !in d;
        }
        assert a == b;
      }
    }
  }

  // ---------------------------------------------------------------- round trip

  /**
   Every null that next holds as an object member is already a null of last. Merge patches use null
   to say "remove", so a null that is not there yet cannot be expressed.
   */
  predicate NullsKept(last: Option<Json>, next: Option<Json>)
    decreases Doc(next)
  {
    match next
    case None => true
    case Some(Null) => last == Some(Null)
    case Some(Obj(fields)) => forall k | k in fields :: NullsKept(Field(last, k), Some(fields[k]))
    case Some(_) => true
  }

  /** Patching last with the difference to next gives next, exactly when no null is introduced. */
  lemma {:induction false} DiffRoundTrip(last: Option<Json>, next: Option<Json>)
    ensures Apply(last, Diff(last, next)) == next <==> NullsKept(last, next)
    decreases Doc(next)
  {
    if IsObj(next) {
      var b := next.value.fields;
      var r := ThreeWay(last, last, next);
      forall k
        ensures Field(r, k) == ThreeWay(Field(last, k), Field(last, k), Field(next, k))
      {
        ThreeWayField(last, last, next, k);
      }
      forall k | k in b
        ensures Field(r, k) == Some(b[k]) <==> NullsKept(Field(last, k), Some(b[k]))
      {
        DiffRoundTrip(Field(last, k), Some(b[k]));
      }
      assert IsObj(r);
      if NullsKept(last, next) {
        forall k
          ensures Lookup(r.value.fields, k) == Lookup(b, k)
        {
          if k !in b {
            assert Field(next, k).None?;
          }
        }
        MapsAgree(r.value.fields, b);
      } else {
        var k :| k in b && !NullsKept(Field(last, k), Some(b[k]));
        assert Field(r, k) != Field(next, k);
      }
    }
  }

  lemma MapsAgree(a: map<string, Json>, b: map<string, Json>)
    requires forall k :: Lookup(a, k) == Lookup(b, k)
    ensures a == b
  {
    forall k
      ensures k in a <==> k in b
      ensures k in a && k in b ==> a[k] == b[k]
    {
      assert Lookup(a, k) == Lookup(b, k);
    }
  }

  // ---------------------------------------------------------------- location-wise behaviour

  /** The source changed this location: removed it, set a non-object value, or made it an object. */
  predicate ChangedAt(last: Option<Json>, next: Option<Json>, p: Path) {
    var x, y := At(last, p), At(next, p);
    if IsObj(y) then !IsObj(x) else x != y
  }

  /** A change at q can reach location p: from above by overwriting or removing, from below always. */
  predicate Disturbs(last: Option<Json>, next: Option<Json>, q: Path, p: Path) {
    ChangedAt(last, next, q) && (p <= q || (q <= p && !IsObj(At(next, q))))
  }

  /** Every location the source changed takes the source's value, whatever the destination holds. */
  lemma {:induction false} ChangesWin(dest: Option<Json>, last: Option<Json>, next: Option<Json>, p: Path)
    requires ChangedAt(last, next, p)
    ensures IsObj(At(next, p)) ==> IsObj(At(ThreeWay(dest, last, next), p))
    ensures !IsObj(At(next, p)) && At(next, p) != Some(Null) ==> At(ThreeWay(dest, last, next), p) == At(next, p)
    ensures At(next, p) == Some(Null) ==> At(ThreeWay(dest, last, next), p) == None
    decreases |p|
  {
    if p != [] {
      if IsObj(next) {
        ThreeWayField(dest, last, next, p[0]);
        ChangesWin(Field(dest, p[0]), Field(last, p[0]), Field(next, p[0]), p[1..]);
      } else {
        AtNone(p[1..]);
        assert At(last, p) != None;
        assert last != next;
      }
    }
  }

  lemma {:induction false} AtNone(p: Path)
    ensures At(None, p) == None
    decreases |p|
  {
    if p != [] {
      AtNone(p[1..]);
    }
  }

  /** Every location no change can reach keeps the destination's value. */
  lemma {:induction false} OthersKept(dest: Option<Json>, last: Option<Json>, next: Option<Json>, p: Path)
    requires forall q :: !Disturbs(last, next, q, p)
    ensures At(ThreeWay(dest, last, next), p) == At(dest, p)
    decreases |p|
  {
    if p == [] {
      NoChangeMeansEqual(last, next);
      DiffEmptyIffEqual(last, next);
    } else {
      assert !Disturbs(last, next, [], p);
      if IsObj(next) {
        ThreeWayField(dest, last, next, p[0]);
        forall q
          ensures !Disturbs(Field(last, p[0]), Field(next, p[0]), q, p[1..])
        {
          var q' := [p[0]] + q;
          assert q'[1..] == q;
          assert !Disturbs(last, next, q', p);
          assert p == [p[0]] + p[1..];
          if p[1..] <= q { assert p <= q'; }
          if q <= p[1..] { assert q' <= p; }
        }
        OthersKept(Field(dest, p[0]), Field(last, p[0]), Field(next, p[0]), p[1..]);
      } else {
        assert last == next;
        DiffEmptyIffEqual(last, next);
      }
    }
  }

  lemma {:induction false} NoChangeMeansEqual(last: Option<Json>, next: Option<Json>)
    requires forall q :: !Disturbs(last, next, q, [])
    ensures last == next
    decreases Doc(next)
  {
    assert !Disturbs(last, next, [], []);
    if IsObj(next) {
      var a, b := last.value.fields, next.value.fields;
      forall k
        ensures Lookup(a, k) == Lookup(b, k)
      {
        forall q
          ensures !Disturbs(Field(last, k), Field(next, k), q, [])
        {
          var q' := [k] + q;
          assert q'[1..] == q;
          assert !Disturbs(last, next, q', []);
        }
        if k in b {
          NoChangeMeansEqual(Field(last, k), Field(next, k));
        } else {
          assert !Disturbs(Field(last, k), Field(next, k), [], []);
        }
      }
      MapsAgree(a, b);
    }
  }
}
