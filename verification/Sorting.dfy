/** Permutations of sequences, and the slice sort the code relies on. */
module Sorting {

  /** The bag of everything the elements contribute. */
  ghost function Bag<T, U>(s: seq<T>, part: T -> multiset<U>): multiset<U> {
    if s == [] then multiset{} else Bag(s[..|s| - 1], part) + part(s[|s| - 1])
  }

  lemma {:induction false} BagWithout<T, U>(s: seq<T>, part: T -> multiset<U>, i: nat)
    requires i < |s|
    ensures Bag(s, part) == Bag(s[..i] + s[i + 1..], part) + part(s[i])
    decreases |s|
  {
    var n := |s| - 1;
    var without := s[..i] + s[i + 1..];
    if i == n {
      assert without == s[..n];
    } else {
      BagWithout(s[..n], part, i);
      assert without[..|without| - 1] == s[..n][..i] + s[..n][i + 1..];
    }
  }

  lemma Without<T>(s: seq<T>, i: nat)
    requires i < |s|
    ensures multiset(s[..i] + s[i + 1..]) == multiset(s) - multiset{s[i]}
  {
    assert s == s[..i] + [s[i]] + s[i + 1..];
  }

  lemma SameElements<T>(a: seq<T>, b: seq<T>)
    requires multiset(a) == multiset(b)
    ensures |a| == |b| && forall x :: x in a <==> x in b
  {
    assert |a| == |multiset(a)| && |b| == |multiset(b)|;
    assert forall x :: x in a <==> x in multiset(a);
  }

  /** Where the last element of `a` is in its permutation `b`; the rest of both are permutations again. */
  lemma MatchLast<T>(a: seq<T>, b: seq<T>) returns (i: nat)
    requires multiset(a) == multiset(b) && a != []
    ensures i < |b| && b[i] == a[|a| - 1]
    ensures multiset(a[..|a| - 1]) == multiset(b[..i] + b[i + 1..])
  {
    var n := |a| - 1;
    SameElements(a, b);
    assert a[n] in b;
    i :| 0 <= i < |b| && b[i] == a[n];
    Without(b, i);
    Without(a, n);
    assert a[..n] + a[n + 1..] == a[..n];
  }

  lemma {:induction false} BagPermuted<T, U>(a: seq<T>, b: seq<T>, part: T -> multiset<U>)
    requires multiset(a) == multiset(b)
    ensures Bag(a, part) == Bag(b, part)
    decreases |a|
  {
    SameElements(a, b);
    if a != [] {
      var i := MatchLast(a, b);
      BagPermuted(a[..|a| - 1], b[..i] + b[i + 1..], part);
      BagWithout(b, part, i);
    }
  }

  lemma {:induction false} BagPointwise<T, U>(a: seq<T>, b: seq<T>, part: T -> multiset<U>)
    requires |a| == |b| && forall i :: 0 <= i < |a| ==> part(a[i]) == part(b[i])
    ensures Bag(a, part) == Bag(b, part)
  {
    if a != [] {
      BagPointwise(a[..|a| - 1], b[..|b| - 1], part);
    }
  }

  lemma {:induction false} BagSame<T(!new), U>(s: seq<T>, left: T -> multiset<U>, right: T -> multiset<U>)
    requires forall t :: left(t) == right(t)
    ensures Bag(s, left) == Bag(s, right)
  {
    if s != [] {
      BagSame(s[..|s| - 1], left, right);
    }
  }

  // ---------- distinct keys ----------

  ghost predicate DistinctBy<T, K>(s: seq<T>, key: T -> K) {
    forall i, j :: 0 <= i < j < |s| ==> key(s[i]) != key(s[j])
  }

  ghost predicate HasKey<T, K>(s: seq<T>, key: T -> K, k: K) {
    exists i :: 0 <= i < |s| && key(s[i]) == k
  }

  lemma {:induction false} BagHas<T, K>(s: seq<T>, key: T -> K, part: T -> multiset<K>, k: K)
    requires forall i :: 0 <= i < |s| ==> part(s[i]) == multiset{key(s[i])}
    ensures Bag(s, part)[k] > 0 <==> HasKey(s, key, k)
  {
    if s != [] {
      var front := s[..|s| - 1];
      BagHas(front, key, part, k);
      if HasKey(s, key, k) {
        var i :| 0 <= i < |s| && key(s[i]) == k;
        assert i < |front| ==> front[i] == s[i];
      }
      if HasKey(front, key, k) {
        var i :| 0 <= i < |front| && key(front[i]) == k;
        assert front[i] == s[i];
      }
    }
  }

  lemma DistinctMore<T, K>(front: seq<T>, x: T, key: T -> K)
    ensures DistinctBy(front + [x], key) <==> DistinctBy(front, key) && !HasKey(front, key, key(x))
  {
    var s := front + [x];
    assert s[|front|] == x && forall i :: 0 <= i < |front| ==> front[i] == s[i];
    if HasKey(front, key, key(x)) {
      var i :| 0 <= i < |front| && key(front[i]) == key(x);
      assert key(s[i]) == key(s[|front|]);
    }
    if DistinctBy(s, key) {
      forall i, j | 0 <= i < j < |front|
        ensures key(front[i]) != key(front[j])
      {
        assert key(s[i]) != key(s[j]);
      }
    }
  }

  ghost predicate AtMostOnce<K(!new)>(b: multiset<K>) {
    forall k :: b[k] <= 1
  }

  lemma OnceMore<K(!new)>(b: multiset<K>, k: K)
    ensures AtMostOnce(b + multiset{k}) <==> AtMostOnce(b) && b[k] == 0
  {
    assert (b + multiset{k})[k] == b[k] + 1;
    assert forall j :: j != k ==> (b + multiset{k})[j] == b[j];
  }

  lemma {:induction false} DistinctIsOnce<T, K(!new)>(s: seq<T>, key: T -> K, part: T -> multiset<K>)
    requires forall i :: 0 <= i < |s| ==> part(s[i]) == multiset{key(s[i])}
    ensures DistinctBy(s, key) <==> AtMostOnce(Bag(s, part))
  {
    if s != [] {
      var n := |s| - 1;
      var front, last := s[..n], key(s[n]);
      DistinctIsOnce(front, key, part);
      BagHas(front, key, part, last);
      DistinctMore(front, s[n], key);
      assert s == front + [s[n]];
      assert Bag(s, part) == Bag(front, part) + multiset{last};
      OnceMore(Bag(front, part), last);
    }
  }

  lemma PermutedDistinct<T(!new), K(!new)>(a: seq<T>, b: seq<T>, key: T -> K)
    requires multiset(a) == multiset(b) && DistinctBy(a, key)
    ensures DistinctBy(b, key)
  {
    var part := t => multiset{key(t)};
    DistinctIsOnce(a, key, part);
    DistinctIsOnce(b, key, part);
    BagPermuted(a, b, part);
  }

  // ---------- sorting ----------

  /** `before` never relates the same two elements both ways, and unrelatedness or reverse order chains. */
  ghost predicate WeakOrder<T(!new)>(before: (T, T) -> bool) {
    && (forall a, b :: before(a, b) ==> !before(b, a))
    && (forall a, b, c :: !before(b, a) && !before(c, b) ==> !before(c, a))
  }

  /** No later element comes before an earlier one. */
  ghost predicate Sorted<T>(s: seq<T>, before: (T, T) -> bool) {
    forall i, j :: 0 <= i < j < |s| ==> !before(s[j], s[i])
  }

  /** A stable insertion sort in place of the library's slice sort. */
  method SortSlice<T(!new)>(s: seq<T>, before: (T, T) -> bool) returns (r: seq<T>)
    requires WeakOrder(before)
    ensures Sorted(r, before) && multiset(r) == multiset(s)
  {
    r := [];
    for i := 0 to |s|
      invariant Sorted(r, before) && multiset(r) == multiset(s[..i])
    {
      r := Insert(r, s[i], before);
      assert s[..i + 1] == s[..i] + [s[i]];
    }
    assert s[..|s|] == s;
  }

  lemma InsertedSorted<T(!new)>(s: seq<T>, x: T, k: nat, before: (T, T) -> bool)
    requires WeakOrder(before) && Sorted(s, before) && k <= |s|
    requires k > 0 ==> !before(x, s[k - 1])
    requires forall i :: k <= i < |s| ==> before(x, s[i])
    ensures Sorted(s[..k] + [x] + s[k..], before)
  {
    forall i | 0 <= i < k
      ensures !before(x, s[i])
    {
      if i < k - 1 {
        assert !before(s[k - 1], s[i]);
      }
    }
  }

  method Insert<T(!new)>(s: seq<T>, x: T, before: (T, T) -> bool) returns (r: seq<T>)
    requires WeakOrder(before) && Sorted(s, before)
    ensures Sorted(r, before) && multiset(r) == multiset(s) + multiset{x}
  {
    hide Sorted, WeakOrder;
    var k := |s|;
    while k > 0 && before(x, s[k - 1])
      invariant 0 <= k <= |s|
      invariant forall i :: k <= i < |s| ==> before(x, s[i])
    {
      k := k - 1;
    }
    InsertedSorted(s, x, k, before);
    r := s[..k] + [x] + s[k..];
    assert s == s[..k] + s[k..];
  }
}
