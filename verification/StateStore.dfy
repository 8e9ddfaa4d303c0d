/**
 The store of last known states: one Secret per primary object, one entry per source object, both
 under hashed names. From outside it is a plain map.
 */
module StateStores {
  import opened Options
  import opened MergePatches
  import opened Objects
  import opened UnstructuredObjects
  import opened ObjectSync
  import opened Related

  /** A primary object as far as it names its Secret. */
  datatype Primary = Primary(cluster: string, apiVersion: string, kind: string, id: NsName)

  /** The hashes used: of a primary's coordinates, trimmed to a fixed length, and of a source's key. */
  datatype Hashes = Hashes(short: Primary -> string, long: StateKey -> string)

  const SHORT_LENGTH := 20

  datatype Secret = Secret(labels: map<string, string>, data: map<string, Blob>)

  function Coordinates(p: Primary): Primary {
    p.(cluster := "")
  }

  function SecretName(h: Hashes, p: Primary): string {
    "obj-state-" + p.cluster + "-" + h.short(Coordinates(p))
  }

  function SourceKey(cluster: string, o: Object): StateKey {
    StateKey(cluster, o.id)
  }

  // ---------------------------------------------------------------- the store as a program

  class SecretClient {
    var secrets: map<string, Secret>

    constructor ()
      ensures secrets == map[]
    {
      secrets := map[];
    }
  }

  /** The state store of one primary object. */
  class ObjectStateStore {
    const h: Hashes
    const primary: Primary
    const labels: map<string, string>
    const client: SecretClient

    constructor (h: Hashes, primary: Primary, labels: map<string, string>, client: SecretClient)
      ensures this.h == h && this.primary == primary && this.labels == labels && this.client == client
    {
      this.h := h;
      this.primary := primary;
      this.labels := labels;
      this.client := client;
    }

    /** The last known state; data that does not decode counts as no state. */
    method Get(source: Object, cluster: string) returns (last: Option<Object>)
      ensures var entry := Entry(h, client.secrets, primary, SourceKey(cluster, source));
              last == if entry.Some? && entry.value.Known? then Some(entry.value.last) else None
    {
      var name := SecretName(h, primary);
      last := None;
      if name in client.secrets {
        var key := h.long(SourceKey(cluster, source));
        var data := client.secrets[name].data;
        if key in data && data[key].Known? {
          last := Some(data[key].last);
        }
      }
    }

    /** The object as it is remembered. */
    method SnapshotObject(obj: Object, subresources: seq<string>) returns (snapshot: Object)
      ensures snapshot == Snapshot(obj, set k | k in subresources)
    {
      var copy := new Unstructured(obj);
      copy.StripMetadata();
      copy.RemoveSubresources(subresources);
      snapshot := copy.value;
    }

    method Put(obj: Object, cluster: string, subresources: seq<string>, fails: bool) returns (ok: bool)
      modifies client
      ensures ok == !fails
      ensures client.secrets == if fails then old(client.secrets)
                                else Written(h, old(client.secrets), primary, labels, SourceKey(cluster, obj),
                                             Known(Snapshot(obj, set k | k in subresources)))
    {
      var snapshot := SnapshotObject(obj, subresources);
      var name := SecretName(h, primary);
      var secret := if name in client.secrets then client.secrets[name] else Secret(map[], map[]);
      secret := secret.(data := secret.data[h.long(SourceKey(cluster, obj)) := Known(snapshot)]);
      secret := secret.(labels := labels);
      if !fails {
        client.secrets := client.secrets[name := secret];
      }
      ok := !fails;
    }
  }

  // ---------------------------------------------------------------- what it stores where

  function Entry(h: Hashes, secrets: map<string, Secret>, p: Primary, k: StateKey): Option<Blob> {
    var name := SecretName(h, p);
    if name in secrets then Lookup(secrets[name].data, h.long(k)) else None
  }

  function Written(h: Hashes, secrets: map<string, Secret>, p: Primary, labels: map<string, string>, k: StateKey, b: Blob): map<string, Secret> {
    var name := SecretName(h, p);
    var data := if name in secrets then secrets[name].data else map[];
    secrets[name := Secret(labels, data[h.long(k) := b])]
  }

  /** No two of these primaries or source keys have the same hash; short hashes have a fixed length. */
  predicate CollisionFree(h: Hashes, ps: set<Primary>, ks: set<StateKey>) {
    && (forall p | p in ps :: |h.short(Coordinates(p))| == SHORT_LENGTH)
    && (forall p, q | p in ps && q in ps && h.short(Coordinates(p)) == h.short(Coordinates(q)) ::
          Coordinates(p) == Coordinates(q))
    && (forall k, l | k in ks && l in ks && h.long(k) == h.long(l) :: k == l)
  }

  /** The fixed length of the short hash keeps cluster name and hash apart. */
  lemma SecretNameInjective(h: Hashes, p: Primary, q: Primary)
    requires CollisionFree(h, {p, q}, {})
    requires SecretName(h, p) == SecretName(h, q)
    ensures p == q
  {
    var s := SecretName(h, p);
    var n := |s| - SHORT_LENGTH;
    assert s[n..] == h.short(Coordinates(p)) && s[n..] == h.short(Coordinates(q));
    var m := |"obj-state-"|;
    assert s[m..n - 1] == p.cluster && s[m..n - 1] == q.cluster;
    assert p == Coordinates(p).(cluster := p.cluster) && q == Coordinates(q).(cluster := q.cluster);
  }

  /** A write is seen under its own primary and key, and nowhere else. */
  lemma WrittenReads(h: Hashes, secrets: map<string, Secret>, p: Primary, labels: map<string, string>, k: StateKey, b: Blob, q: Primary, l: StateKey)
    requires CollisionFree(h, {p, q}, {k, l})
    ensures Entry(h, Written(h, secrets, p, labels, k, b), q, l)
            == if q == p && l == k then Some(b) else Entry(h, secrets, q, l)
  {
    if SecretName(h, p) == SecretName(h, q) {
      SecretNameInjective(h, p, q);
    }
  }

  datatype Write = Write(p: Primary, labels: map<string, string>, k: StateKey, b: Blob)

  function Stored(h: Hashes, writes: seq<Write>): map<string, Secret> {
    if writes == [] then map[]
    else
      var w := writes[|writes|-1];
      Written(h, Stored(h, writes[..|writes|-1]), w.p, w.labels, w.k, w.b)
  }

  function PlainMap(writes: seq<Write>): map<(Primary, StateKey), Blob> {
    if writes == [] then map[]
    else
      var w := writes[|writes|-1];
      PlainMap(writes[..|writes|-1])[(w.p, w.k) := w.b]
  }

  /** After any sequence of writes, every read answers as a plain map from primary and source would. */
  lemma {:induction false} StoreRefinesMap(h: Hashes, writes: seq<Write>, p: Primary, k: StateKey)
    requires CollisionFree(h, (set w | w in writes :: w.p) + {p}, (set w | w in writes :: w.k) + {k})
    ensures Entry(h, Stored(h, writes), p, k) == Lookup(PlainMap(writes), (p, k))
    decreases |writes|
  {
    if writes != [] {
      var init, w := writes[..|writes|-1], writes[|writes|-1];
      assert forall x | x in init :: x in writes;
      StoreRefinesMap(h, init, p, k);
      assert w in writes;
      WrittenReads(h, Stored(h, init), w.p, w.labels, w.k, w.b, p, k);
    }
  }

  /**
   What is known of one source survives a write for another exactly when cluster, namespace or name
   differ: a source of another kind with the same name replaces it.
   */
  lemma StatesKeptApartIff(h: Hashes, secrets: map<string, Secret>, p: Primary, labels: map<string, string>,
                           c1: string, o1: Object, c2: string, o2: Object, subresources: set<string>)
    requires CollisionFree(h, {p}, {SourceKey(c1, o1), SourceKey(c2, o2)})
    requires Snapshot(o1, subresources) != Snapshot(o2, subresources)
    ensures var first := Written(h, secrets, p, labels, SourceKey(c1, o1), Known(Snapshot(o1, subresources)));
            var second := Written(h, first, p, labels, SourceKey(c2, o2), Known(Snapshot(o2, subresources)));
            Entry(h, second, p, SourceKey(c1, o1)) == Some(Known(Snapshot(o1, subresources))) <==> c1 != c2 || o1.id != o2.id
  {
    var k1, k2 := SourceKey(c1, o1), SourceKey(c2, o2);
    var s1, s2 := Known(Snapshot(o1, subresources)), Known(Snapshot(o2, subresources));
    var first := Written(h, secrets, p, labels, k1, s1);
    WrittenReads(h, secrets, p, labels, k1, s1, p, k1);
    WrittenReads(h, first, p, labels, k2, s2, p, k1);
  }

  /** What is remembered after a repair on the way is what would have been remembered without it. */
  lemma RepairNotRemembered(c: Config, source: Object, dest: Object)
    ensures Snapshot(Revision(c, source, dest), c.subresources) == Snapshot(source, c.subresources)
  {
    if c.linkDest {
      RepairInvisibleToSnapshot(c.hash, source, dest, KeyOf(c, source), c.subresources);
    } else {
      assert SyncableLabels(SyncableLabels(source.labels)) == SyncableLabels(source.labels);
      assert SyncableAnnotations(SyncableAnnotations(source.annotations)) == SyncableAnnotations(source.annotations);
    }
  }
}
