/** Sorting by an order that is given, and when the result is determined by the elements alone. */
module Sorting {

  ghost predicate TotalPreorder<T(!new)>(le: (T, T) -> bool) {
    && (forall x, y :: le(x, y) || le(y, x))
    && (forall x, y, z {:trigger le(x, y), le(y, z)} :: le(x, y) && le(y, z) ==> le(x, z))
  }

  predicate Sorted<T>(xs: seq<T>, le: (T, T) -> bool) {
    forall i, j | 0 <= i < j < |xs| :: le(xs[i], xs[j])
  }

  /** Elements that compare equal are equal. */
  ghost predicate Separates<T(!new)>(le: (T, T) -> bool, xs: seq<T>) {
    forall x, y {:trigger le(x, y)} | x in xs && y in xs && le(x, y) && le(y, x) :: x == y
  }

  /** Where a new element belongs: behind everything that is not greater. */
  method FindPlace<T(!new)>(xs: seq<T>, x: T, le: (T, T) -> bool) returns (k: nat)
    requires TotalPreorder(le) && Sorted(xs, le)
    ensures k <= |xs|
    ensures forall i | 0 <= i < k :: le(xs[i], x)
    ensures forall i | k <= i < |xs| :: le(x, xs[i])
  {
    k := |xs|;
    while k > 0 && !le(xs[k - 1], x)
      invariant k <= |xs|
      invariant forall i | k <= i < |xs| :: le(x, xs[i])
    {
      k := k - 1;
    }
    forall i | 0 <= i < k
      ensures le(xs[i], x)
    {
      assert i < k - 1 ==> le(xs[i], xs[k - 1]);
    }
  }

  method SortBy<T(!new)>(xs: seq<T>, le: (T, T) -> bool) returns (sorted: seq<T>)
    requires TotalPreorder(le)
    ensures Sorted(sorted, le)
    ensures multiset(sorted) == multiset(xs)
  {
    sorted := [];
    for i := 0 to |xs|
      invariant Sorted(sorted, le)
      invariant multiset(sorted) == multiset(xs[..i])
    {
      var k := FindPlace(sorted, xs[i], le);
      assert xs[..i + 1] == xs[..i] + [xs[i]];
      assert sorted == sorted[..k] + sorted[k..];
      sorted := sorted[..k] + [xs[i]] + sorted[k..];
    }
    assert xs[..|xs|] == xs;
  }

  /** Both lists start with the least element. */
  lemma SameHead<T(!new)>(xs: seq<T>, ys: seq<T>, le: (T, T) -> bool)
    requires TotalPreorder(le) && Sorted(xs, le) && Sorted(ys, le) && Separates(le, xs)
    requires xs != [] && ys != [] && xs[0] in ys && ys[0] in xs
    ensures xs[0] == ys[0]
  {
    var i :| 0 <= i < |ys| && ys[i] == xs[0];
    var j :| 0 <= j < |xs| && xs[j] == ys[0];
    assert le(xs[0], xs[0]) && le(ys[0], ys[0]);
    assert le(ys[0], ys[i]) && le(xs[0], xs[j]);
  }

  /** Where no two elements compare equal, there is only one way to sort them. */
  lemma {:induction false} OrderUnique<T(!new)>(xs: seq<T>, ys: seq<T>, le: (T, T) -> bool)
    requires TotalPreorder(le) && Sorted(xs, le) && Sorted(ys, le) && Separates(le, xs)
    requires multiset(xs) == multiset(ys)
    ensures xs == ys
    decreases |xs|
  {
    assert |xs| == |multiset(xs)| == |multiset(ys)| == |ys|;
    if xs != [] {
      assert xs[0] in multiset(ys) && ys[0] in multiset(xs);
      SameHead(xs, ys, le);
      assert xs == [xs[0]] + xs[1..] && ys == [xs[0]] + ys[1..];
      assert multiset(xs[1..]) == multiset(xs) - multiset{xs[0]};
      assert multiset(ys[1..]) == multiset(ys) - multiset{xs[0]};
      OrderUnique(xs[1..], ys[1..], le);
    }
  }

  predicate NoRepeats<T(==)>(xs: seq<T>) {
    forall i, j | 0 <= i < j < |xs| :: xs[i] != xs[j]
  }

  lemma {:induction false} CountOnce<T>(xs: seq<T>, x: T)
    requires NoRepeats(xs)
    ensures multiset(xs)[x] == if x in xs then 1 else 0
    decreases |xs|
  {
    if xs != [] {
      assert xs == [xs[0]] + xs[1..];
      CountOnce(xs[1..], x);
    }
  }

  /** Lists without repetitions that have the same elements are permutations of each other. */
  lemma SameElements<T(!new)>(xs: seq<T>, ys: seq<T>)
    requires NoRepeats(xs) && NoRepeats(ys) && forall x :: x in xs <==> x in ys
    ensures multiset(xs) == multiset(ys)
  {
    forall x
      ensures multiset(xs)[x] == multiset(ys)[x]
    {
      CountOnce(xs, x);
      CountOnce(ys, x);
    }
  }

  lemma CountsNoRepeats<T(!new)>(xs: seq<T>)
    requires forall x :: multiset(xs)[x] <= 1
    ensures NoRepeats(xs)
  {
    forall i, j | 0 <= i < j < |xs|
      ensures xs[i] != xs[j]
    {
      assert xs == xs[..i] + [xs[i]] + xs[i + 1..j] + [xs[j]] + xs[j + 1..];
      assert multiset(xs)[xs[i]] <= 1;
    }
  }

  lemma StillNoRepeats<T(!new)>(xs: seq<T>, ys: seq<T>)
    requires NoRepeats(xs) && multiset(xs) == multiset(ys)
    ensures NoRepeats(ys)
  {
    forall x
      ensures multiset(ys)[x] <= 1
    {
      CountOnce(xs, x);
    }
    CountsNoRepeats(ys);
  }

  // ---------------------------------------------------------------- when sorting is determined

  /** The second list is the first one, sorted. */
  predicate IsSorting<T(==)>(xs: seq<T>, ys: seq<T>, le: (T, T) -> bool) {
    Sorted(ys, le) && multiset(ys) == multiset(xs)
  }

  function Insert<T>(xs: seq<T>, x: T, le: (T, T) -> bool): seq<T> {
    if xs == [] || le(x, xs[0]) then [x] + xs else [xs[0]] + Insert(xs[1..], x, le)
  }

  function Arrange<T>(xs: seq<T>, le: (T, T) -> bool): seq<T> {
    if xs == [] then [] else Insert(Arrange(xs[1..], le), xs[0], le)
  }

  lemma {:induction false} InsertElements<T(!new)>(xs: seq<T>, x: T, le: (T, T) -> bool)
    ensures multiset(Insert(xs, x, le)) == multiset(xs) + multiset{x}
  {
    if xs != [] && !le(x, xs[0]) {
      InsertElements(xs[1..], x, le);
      assert xs == [xs[0]] + xs[1..];
    }
  }

  lemma {:induction false} InsertSorts<T(!new)>(xs: seq<T>, x: T, le: (T, T) -> bool)
    requires TotalPreorder(le) && Sorted(xs, le)
    ensures Sorted(Insert(xs, x, le), le)
  {
    if xs != [] && !le(x, xs[0]) {
      InsertSorts(xs[1..], x, le);
      InsertElements(xs[1..], x, le);
      var rest := Insert(xs[1..], x, le);
      forall i | 0 <= i < |rest|
        ensures le(xs[0], rest[i])
      {
        assert rest[i] in multiset(rest);
      }
    }
  }

  lemma {:induction false} ArrangeSorts<T(!new)>(xs: seq<T>, le: (T, T) -> bool)
    requires TotalPreorder(le)
    ensures IsSorting(xs, Arrange(xs, le), le)
  {
    if xs != [] {
      ArrangeSorts(xs[1..], le);
      InsertSorts(Arrange(xs[1..], le), xs[0], le);
      InsertElements(Arrange(xs[1..], le), xs[0], le);
      assert xs == [xs[0]] + xs[1..];
    }
  }

  lemma SwapElements<T(!new)>(xs: seq<T>, i: nat, j: nat)
    requires i < j < |xs|
    ensures multiset(xs[i := xs[j]][j := xs[i]]) == multiset(xs)
  {
    assert xs == xs[..i] + [xs[i]] + xs[i + 1..j] + [xs[j]] + xs[j + 1..];
    assert xs[i := xs[j]][j := xs[i]] == xs[..i] + [xs[j]] + xs[i + 1..j] + [xs[i]] + xs[j + 1..];
  }

  /** Two elements that compare equal can change places in a sorted list. */
  lemma SwapSorted<T(!new)>(xs: seq<T>, i: nat, j: nat, le: (T, T) -> bool)
    requires TotalPreorder(le) && Sorted(xs, le) && i < j < |xs| && le(xs[j], xs[i])
    ensures Sorted(xs[i := xs[j]][j := xs[i]], le)
  {
    var ys := xs[i := xs[j]][j := xs[i]];
    assert le(xs[i], xs[j]) && le(xs[i], xs[i]) && le(xs[j], xs[j]);
    forall p, q | 0 <= p < q < |ys|
      ensures le(ys[p], ys[q])
    {
      assert le(xs[p], xs[q]);
    }
  }

  /** Sorting has one outcome exactly when no two different elements compare equal. */
  lemma DeterminedIff<T(!new)>(xs: seq<T>, le: (T, T) -> bool)
    requires TotalPreorder(le)
    ensures (forall a, b | IsSorting(xs, a, le) && IsSorting(xs, b, le) :: a == b) <==> Separates(le, xs)
  {
    if Separates(le, xs) {
      forall a, b | IsSorting(xs, a, le) && IsSorting(xs, b, le)
        ensures a == b
      {
        forall x | x in a
          ensures x in xs
        {
          assert x in multiset(a);
        }
        OrderUnique(a, b, le);
      }
    } else {
      var x, y :| x in xs && y in xs && le(x, y) && le(y, x) && x != y;
      TwoSortings(xs, x, y, le);
    }
  }

  lemma TwoSortings<T(!new)>(xs: seq<T>, x: T, y: T, le: (T, T) -> bool)
    requires TotalPreorder(le) && x in xs && y in xs && le(x, y) && le(y, x) && x != y
    ensures exists a, b :: IsSorting(xs, a, le) && IsSorting(xs, b, le) && a != b
  {
    var a := Arrange(xs, le);
    ArrangeSorts(xs, le);
    assert x in multiset(a) && y in multiset(a);
    var i :| 0 <= i < |a| && a[i] == x;
    var j :| 0 <= j < |a| && a[j] == y;
    var p, q := if i < j then i else j, if i < j then j else i;
    SwapSorted(a, p, q, le);
    SwapElements(a, p, q);
    var b := a[p := a[q]][q := a[p]];
    assert b[p] == a[q] && a[q] != a[p];
    assert IsSorting(xs, a, le) && IsSorting(xs, b, le) && a != b;
  }

  /** The elements of a set, in some order. */
  lemma {:induction false} ListOf<T(!new)>(s: set<T>) returns (xs: seq<T>)
    ensures multiset(xs) == multiset(s)
    decreases s
  {
    if s == {} {
      xs := [];
    } else {
      var x :| x in s;
      var rest := ListOf(s - {x});
      xs := [x] + rest;
      assert s == (s - {x}) + {x};
    }
  }

  // ---------------------------------------------------------------- strings

  /** Strings in lexicographic order. */
  predicate AtMost(a: string, b: string)
    decreases |a|
  {
    a == [] || (b != [] && (a[0] < b[0] || (a[0] == b[0] && AtMost(a[1..], b[1..]))))
  }

  lemma {:induction false} AtMostTotal(a: string, b: string)
    ensures AtMost(a, b) || AtMost(b, a)
    ensures AtMost(a, b) && AtMost(b, a) ==> a == b
    decreases |a|
  {
    if a != [] && b != [] && a[0] == b[0] {
      AtMostTotal(a[1..], b[1..]);
      assert a == [a[0]] + a[1..] && b == [b[0]] + b[1..];
    }
  }

  lemma {:induction false} AtMostTransitive(a: string, b: string, c: string)
    requires AtMost(a, b) && AtMost(b, c)
    ensures AtMost(a, c)
    decreases |a|
  {
    if a != [] && a[0] == b[0] == c[0] {
      AtMostTransitive(a[1..], b[1..], c[1..]);
    }
  }

  function ByKey<T>(key: T -> string): (T, T) -> bool {
    (x: T, y: T) => AtMost(key(x), key(y))
  }

  /** Ordering by a string key is a total preorder, which tells elements with different keys apart. */
  lemma KeyOrder<T(!new)>(key: T -> string)
    ensures TotalPreorder(ByKey(key))
    ensures forall x, y :: ByKey(key)(x, y) && ByKey(key)(y, x) ==> key(x) == key(y)
  {
    forall x, y
      ensures ByKey(key)(x, y) || ByKey(key)(y, x)
      ensures ByKey(key)(x, y) && ByKey(key)(y, x) ==> key(x) == key(y)
    {
      AtMostTotal(key(x), key(y));
    }
    forall x, y, z | ByKey(key)(x, y) && ByKey(key)(y, z)
      ensures ByKey(key)(x, z)
    {
      AtMostTransitive(key(x), key(y), key(z));
    }
  }

  ghost predicate KeysDiffer<T(!new)>(key: T -> string, xs: seq<T>) {
    forall x, y {:trigger key(x), key(y)} | x in xs && y in xs && key(x) == key(y) :: x == y
  }

  /** Where keys are different, sorting by key gives one list for any order of the input. */
  lemma SortedByKeyUnique<T(!new)>(xs: seq<T>, ys: seq<T>, key: T -> string)
    requires Sorted(xs, ByKey(key)) && Sorted(ys, ByKey(key))
    requires multiset(xs) == multiset(ys) && KeysDiffer(key, xs)
    ensures xs == ys
  {
    KeyOrder(key);
    OrderUnique(xs, ys, ByKey(key));
  }
}
