/** What several modules need of sequences. */
module Sequences {
  predicate Distinct<T(==)>(s: seq<T>) {
    forall i, j :: 0 <= i < j < |s| ==> s[i] != s[j]
  }

  function Without<T>(s: seq<T>, index: nat): seq<T>
    requires index < |s|
  {
    s[..index] + s[index + 1..]
  }

  lemma SumOfThree<T>(a: seq<T>, b: seq<T>, c: seq<T>)
    ensures a + b + c == a + (b + c)
  {
  }

  function Flatten<T>(parts: seq<seq<T>>): seq<T> {
    if parts == [] then [] else Flatten(parts[..|parts| - 1]) + parts[|parts| - 1]
  }

  lemma {:induction false} FlattenIsEmpty<T>(parts: seq<seq<T>>)
    ensures Flatten(parts) == [] <==> forall i :: 0 <= i < |parts| ==> parts[i] == []
  {
    if parts != [] {
      var n := |parts| - 1;
      FlattenIsEmpty(parts[..n]);
      assert |Flatten(parts)| == |Flatten(parts[..n])| + |parts[n]|;
    }
  }

  lemma {:induction false} FlattenHas<T>(parts: seq<seq<T>>, x: T)
    ensures x in Flatten(parts) <==> exists i :: 0 <= i < |parts| && x in parts[i]
  {
    if parts != [] {
      var n := |parts| - 1;
      FlattenHas(parts[..n], x);
      if x in Flatten(parts[..n]) {
        var i :| 0 <= i < |parts[..n]| && x in parts[..n][i];
        assert x in parts[i];
      }
      if i :| 0 <= i < |parts| && x in parts[i] {
        assert i < n ==> x in parts[..n][i];
      }
    }
  }

  lemma FlattenOneMore<T>(parts: seq<seq<T>>, i: nat)
    requires i < |parts|
    ensures Flatten(parts[..i + 1]) == Flatten(parts[..i]) + parts[i]
  {
    assert parts[..i + 1][..i] == parts[..i];
  }

  // --- Sorting

  predicate SortedBy<T(!new)>(s: seq<T>, key: T -> int) {
    forall i, j :: 0 <= i < j < |s| ==> key(s[i]) <= key(s[j])
  }

  predicate DistinctBy<T(!new)>(s: seq<T>, key: T -> int) {
    forall i, j :: 0 <= i < j < |s| ==> key(s[i]) != key(s[j])
  }

  lemma TailSorted<T(!new)>(s: seq<T>, key: T -> int)
    requires SortedBy(s, key) && s != []
    ensures SortedBy(s[1..], key)
    ensures DistinctBy(s, key) ==> DistinctBy(s[1..], key)
  {
  }

  /** The element with the least key comes first in any sorted arrangement. */
  lemma SameFirst<T(!new)>(a: seq<T>, b: seq<T>, key: T -> int)
    requires multiset(a) == multiset(b) && a != [] && b != []
    requires SortedBy(a, key) && SortedBy(b, key) && DistinctBy(b, key)
    ensures a[0] == b[0]
  {
    assert a[0] in multiset(b) && b[0] in multiset(a);
    var i :| 0 <= i < |b| && b[i] == a[0];
    var j :| 0 <= j < |a| && a[j] == b[0];
    assert key(a[0]) <= key(a[j]) && key(b[0]) <= key(b[i]);
  }

  lemma MultisetTail<T>(a: seq<T>)
    requires a != []
    ensures multiset(a[1..]) == multiset(a) - multiset{a[0]}
  {
    assert a == [a[0]] + a[1..];
  }

  lemma SameSize<T>(a: seq<T>, b: seq<T>)
    requires multiset(a) == multiset(b)
    ensures |a| == |b|
  {
    assert |a| == |multiset(a)| && |b| == |multiset(b)|;
  }

  /** Taking the common first element away. */
  lemma Beheaded<T(!new)>(a: seq<T>, b: seq<T>, key: T -> int)
    requires multiset(a) == multiset(b) && a != [] && b != [] && a[0] == b[0]
    requires SortedBy(a, key) && SortedBy(b, key) && DistinctBy(b, key)
    ensures multiset(a[1..]) == multiset(b[1..])
    ensures SortedBy(a[1..], key) && SortedBy(b[1..], key) && DistinctBy(b[1..], key)
  {
    MultisetTail(a);
    MultisetTail(b);
    TailSorted(a, key);
    TailSorted(b, key);
  }

  lemma FirstAndRest<T>(a: seq<T>, b: seq<T>)
    requires a != [] && b != [] && a[0] == b[0] && a[1..] == b[1..]
    ensures a == b
  {
    assert a == [a[0]] + a[1..] && b == [b[0]] + b[1..];
  }

  /** Two sorted arrangements of the same elements are the same, if no two keys are. */
  lemma {:induction false} SortIsUnique<T(!new)>(a: seq<T>, b: seq<T>, key: T -> int)
    requires multiset(a) == multiset(b)
    requires SortedBy(a, key) && SortedBy(b, key) && DistinctBy(b, key)
    ensures a == b
  {
    SameSize(a, b);
    if a != [] {
      SameFirst(a, b, key);
      Beheaded(a, b, key);
      SortIsUnique(a[1..], b[1..], key);
      FirstAndRest(a, b);
    }
  }

  function Inserted<T>(x: T, s: seq<T>, key: T -> int): seq<T> {
    if s == [] || key(x) < key(s[0]) then [x] + s else [s[0]] + Inserted(x, s[1..], key)
  }

  /** In the order of the keys; equal ones stay in the order in which they are. */
  function Sorted<T>(s: seq<T>, key: T -> int): seq<T> {
    if s == [] then [] else Inserted(s[|s| - 1], Sorted(s[..|s| - 1], key), key)
  }

  lemma PutBefore<T(!new)>(x: T, s: seq<T>, key: T -> int)
    requires forall y :: y in multiset(s) ==> key(x) <= key(y)
    ensures SortedBy(s, key) ==> SortedBy([x] + s, key)
    ensures DistinctBy(s, key) && (forall y :: y in multiset(s) ==> key(x) != key(y)) ==> DistinctBy([x] + s, key)
  {
    assert forall j :: 0 <= j < |s| ==> s[j] in multiset(s);
  }

  lemma LeastFirst<T(!new)>(s: seq<T>, key: T -> int)
    requires SortedBy(s, key) && s != []
    ensures forall y :: y in multiset(s) ==> key(s[0]) <= key(y)
  {
    forall y | y in multiset(s) ensures key(s[0]) <= key(y) {
      var i :| 0 <= i < |s| && s[i] == y;
    }
  }

  lemma {:induction false} InsertedIsSorted<T(!new)>(x: T, s: seq<T>, key: T -> int)
    requires SortedBy(s, key)
    ensures multiset(Inserted(x, s, key)) == multiset(s) + multiset{x}
    ensures SortedBy(Inserted(x, s, key), key)
  {
    if s != [] {
      LeastFirst(s, key);
      if key(x) < key(s[0]) {
        PutBefore(x, s, key);
      } else {
        TailSorted(s, key);
        InsertedIsSorted(x, s[1..], key);
        MultisetTail(s);
        PutBefore(s[0], Inserted(x, s[1..], key), key);
      }
    }
  }

  lemma {:induction false} SortedSorts<T(!new)>(s: seq<T>, key: T -> int)
    ensures multiset(Sorted(s, key)) == multiset(s)
    ensures SortedBy(Sorted(s, key), key)
  {
    if s != [] {
      var n := |s| - 1;
      SortedSorts(s[..n], key);
      InsertedIsSorted(s[n], Sorted(s[..n], key), key);
      assert s == s[..n] + [s[n]];
    }
  }

  lemma DistinctFrom<T(!new)>(x: T, s: seq<T>, key: T -> int)
    requires DistinctBy(s, key) && forall y :: y in multiset(s) ==> key(x) != key(y)
    ensures DistinctBy([x] + s, key)
  {
    assert forall j :: 0 <= j < |s| ==> s[j] in multiset(s);
  }

  lemma FirstIsDistinct<T(!new)>(s: seq<T>, key: T -> int)
    requires DistinctBy(s, key) && s != []
    ensures forall y :: y in multiset(s[1..]) ==> key(s[0]) != key(y)
  {
    forall y | y in multiset(s[1..]) ensures key(s[0]) != key(y) {
      var i :| 0 <= i < |s[1..]| && s[1..][i] == y;
      assert s[i + 1] == y;
    }
  }

  lemma {:induction false} InsertedIsDistinct<T(!new)>(x: T, s: seq<T>, key: T -> int)
    requires SortedBy(s, key) && DistinctBy(s, key) && forall y :: y in multiset(s) ==> key(x) != key(y)
    ensures DistinctBy(Inserted(x, s, key), key)
  {
    if s == [] || key(x) < key(s[0]) {
      DistinctFrom(x, s, key);
    } else {
      TailSorted(s, key);
      MultisetTail(s);
      FirstIsDistinct(s, key);
      InsertedIsDistinct(x, s[1..], key);
      InsertedIsSorted(x, s[1..], key);
      DistinctFrom(s[0], Inserted(x, s[1..], key), key);
    }
  }

  lemma LastIsDistinct<T(!new)>(s: seq<T>, key: T -> int)
    requires DistinctBy(s, key) && s != []
    ensures DistinctBy(s[..|s| - 1], key)
    ensures forall y :: y in multiset(s[..|s| - 1]) ==> key(s[|s| - 1]) != key(y)
  {
    var n := |s| - 1;
    forall y | y in multiset(s[..n]) ensures key(s[n]) != key(y) {
      var i :| 0 <= i < n && s[..n][i] == y;
    }
  }

  lemma {:induction false} SortedIsDistinct<T(!new)>(s: seq<T>, key: T -> int)
    requires DistinctBy(s, key)
    ensures DistinctBy(Sorted(s, key), key)
  {
    if s != [] {
      var n := |s| - 1;
      LastIsDistinct(s, key);
      SortedIsDistinct(s[..n], key);
      SortedSorts(s[..n], key);
      InsertedIsDistinct(s[n], Sorted(s[..n], key), key);
    }
  }
}
