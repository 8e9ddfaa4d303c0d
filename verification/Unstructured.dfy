/**
 Objects that are changed in place on their way from one side to the other: stripping, stamping and
 repairing of metadata, and the loops over string maps these are made of.
 */
module UnstructuredObjects {
  import opened Options
  import opened MergePatches
  import opened Objects

  /** The entries whose key is not forbidden. */
  method FilterLabels(original: map<string, string>, forbidden: set<string>) returns (filtered: map<string, string>)
    ensures filtered == original - forbidden
  {
    filtered := map[];
    var left := original.Keys;
    while left != {}
      invariant left <= original.Keys
      invariant filtered == (original - left) - forbidden
      decreases left
    {
      var k :| k in left;
      if k !in forbidden {
        filtered := filtered[k := original[k]];
      }
      left := left - {k};
    }
  }

  method FilterUnsyncableLabels(original: map<string, string>) returns (out: map<string, string>)
    ensures out == SyncableLabels(original)
  {
    var filtered := FilterLabels(original, UNSYNCABLE_LABELS);
    out := map[];
    var left := filtered.Keys;
    while left != {}
      invariant left <= filtered.Keys
      invariant out == SyncableLabels(original - left)
      decreases left
    {
      var k :| k in left;
      if !(CLAIMED_PREFIX <= k) {
        out := out[k := filtered[k]];
      }
      left := left - {k};
    }
    assert original - left == original;
  }

  method FilterUnsyncableAnnotations(original: map<string, string>) returns (out: map<string, string>)
    ensures out == SyncableAnnotations(original)
  {
    out := FilterLabels(original, UNSYNCABLE_ANNOTATIONS);
    ghost var filtered := out;
    var left := out.Keys;
    while left != {}
      invariant left <= filtered.Keys
      invariant out.Keys <= filtered.Keys
      invariant forall k | k in filtered :: k in out <==> k in left || !(RELATED_PREFIX <= k)
      invariant forall k | k in out :: out[k] == filtered[k]
      decreases left
    {
      var k :| k in left;
      if RELATED_PREFIX <= k {
        out := out - {k};
      }
      left := left - {k};
    }
  }

  /** An object held in memory, whose fields the syncer updates in place. */
  class Unstructured {
    var value: Object

    constructor (o: Object)
      ensures value == o
    {
      value := o;
    }

    /** Removes all metadata that belongs to one cluster or to the agent. */
    method StripMetadata()
      modifies this
      ensures value == Strip(old(value))
    {
      value := value.(finalizers := {}, runtime := map[]);
      var annotations := FilterUnsyncableAnnotations(value.annotations);
      value := value.(annotations := annotations);
      var labels := FilterUnsyncableLabels(value.labels);
      value := value.(labels := labels);
    }

    method EnsureLabels(desired: map<string, string>)
      modifies this
      ensures value == old(value).(labels := old(value).labels + desired)
    {
      var labels := value.labels;
      var left := desired.Keys;
      while left != {}
        invariant left <= desired.Keys
        invariant labels == old(value).labels + (desired - left)
        decreases left
      {
        var k :| k in left;
        labels := labels[k := desired[k]];
        left := left - {k};
      }
      assert desired - left == desired;
      value := value.(labels := labels);
    }

    method EnsureAnnotations(desired: map<string, string>)
      modifies this
      ensures value == old(value).(annotations := old(value).annotations + desired)
    {
      var annotations := value.annotations;
      var left := desired.Keys;
      while left != {}
        invariant left <= desired.Keys
        invariant annotations == old(value).annotations + (desired - left)
        decreases left
      {
        var k :| k in left;
        annotations := annotations[k := desired[k]];
        left := left - {k};
      }
      assert desired - left == desired;
      value := value.(annotations := annotations);
    }

    /** Sets on this copy of the source those links that the destination object lacks. */
    method ThreeWayDiffMetadata(dest: Object, desiredLabels: map<string, string>, desiredAnnotations: map<string, string>)
      modifies this
      ensures value == Repair(old(value), dest, desiredLabels, desiredAnnotations)
    {
      var labels := SetMissing(value.labels, dest.labels, desiredLabels);
      value := value.(labels := labels);
      var annotations := SetMissing(value.annotations, dest.annotations, desiredAnnotations);
      value := value.(annotations := annotations);
    }

    /** Deletes top-level fields one by one. */
    method RemoveSubresources(keys: seq<string>)
      modifies this
      ensures value == old(value).(content := old(value).content - (set k | k in keys))
    {
      for i := 0 to |keys|
        invariant value == old(value).(content := old(value).content - (set k | k in keys[..i]))
      {
        assert keys[..i + 1] == keys[..i] + [keys[i]];
        value := value.(content := value.content - {keys[i]});
      }
      assert keys[..|keys|] == keys;
    }

    /** Writes the relevant top-level fields of another object over the own ones. */
    method Overlay(source: map<string, Json>, irrelevant: set<string>)
      modifies this
      ensures value == old(value).(content := old(value).content + (source - irrelevant))
    {
      var left := source.Keys;
      while left != {}
        invariant left <= source.Keys
        invariant value == old(value).(content := old(value).content + ((source - left) - irrelevant))
        decreases left
      {
        var k :| k in left;
        if k !in irrelevant {
          value := value.(content := value.content[k := source[k]]);
        }
        left := left - {k};
      }
      assert source - left == source;
    }
  }

  lemma MissingStep(dest: map<string, string>, desired: map<string, string>, left: set<string>, k: string)
    requires k in left && k in desired
    ensures var before := Missing(dest, desired - left);
            Missing(dest, desired - (left - {k})) == if k in dest && dest[k] == desired[k] then before else before[k := desired[k]]
  {
    var rest := desired - (left - {k});
    assert rest == (desired - left)[k := desired[k]];
  }

  method SetMissing(have: map<string, string>, dest: map<string, string>, desired: map<string, string>) returns (out: map<string, string>)
    ensures out == have + Missing(dest, desired)
  {
    out := have;
    var left := desired.Keys;
    while left != {}
      invariant left <= desired.Keys
      invariant out == have + Missing(dest, desired - left)
      decreases left
    {
      var k :| k in left;
      MissingStep(dest, desired, left, k);
      if !(k in dest && dest[k] == desired[k]) {
        out := out[k := desired[k]];
      }
      left := left - {k};
    }
    assert desired - left == desired;
  }
}
