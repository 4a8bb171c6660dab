/** Python's `sorted(xs, key=...)` and `list.sort(key=...)`, which are stable sorts,
    modelled as a stable insertion sort parameterised by the strict "sorts before"
    relation of the key. */
module Sorting {

  /** Insert `x` after every element it does not sort before. */
  function Insert<T>(x: T, s: seq<T>, lt: (T, T) -> bool): (r: seq<T>)
    ensures |r| == |s| + 1
    ensures multiset(r) == multiset(s) + multiset{x}
  {
    if s == [] then [x]
    else if lt(x, s[0]) then [x] + s
    else
      assert s == [s[0]] + s[1..];
      [s[0]] + Insert(x, s[1..], lt)
  }

  /** Insertion sort that inserts the elements in their original order. */
  function SortBy<T>(s: seq<T>, lt: (T, T) -> bool): (r: seq<T>)
    ensures |r| == |s|
    ensures multiset(r) == multiset(s)
  {
    if s == [] then []
    else
      assert s == s[..|s| - 1] + [s[|s| - 1]];
      Insert(s[|s| - 1], SortBy(s[..|s| - 1], lt), lt)
  }

  /** No element sorts strictly before its predecessor. */
  predicate SortedBy<T>(s: seq<T>, lt: (T, T) -> bool) {
    forall i :: 0 < i < |s| ==> !lt(s[i], s[i - 1])
  }

  /** `lt` is asymmetric on the elements of `s`. */
  predicate AsymmetricOn<T>(s: seq<T>, lt: (T, T) -> bool) {
    forall i, j :: 0 <= i < |s| && 0 <= j < |s| && lt(s[i], s[j]) ==> !lt(s[j], s[i])
  }

  lemma {:induction false} InsertSorted<T>(x: T, s: seq<T>, lt: (T, T) -> bool)
    requires SortedBy(s, lt)
    requires AsymmetricOn([x] + s, lt)
    ensures SortedBy(Insert(x, s, lt), lt)
    ensures s != [] ==> Insert(x, s, lt)[0] == x || Insert(x, s, lt)[0] == s[0]
  {
    if s != [] && !lt(x, s[0]) {
      var rest := s[1..];
      assert forall i, j :: 0 <= i < |[x] + rest| && 0 <= j < |[x] + rest| ==>
        ([x] + rest)[i] == ([x] + s)[if i == 0 then 0 else i + 1] && ([x] + rest)[j] == ([x] + s)[if j == 0 then 0 else j + 1];
      InsertSorted(x, rest, lt);
      var r := Insert(x, s, lt);
      assert r == [s[0]] + Insert(x, rest, lt);
      forall i | 0 < i < |r| ensures !lt(r[i], r[i - 1]) {
        if i == 1 {
          if rest != [] {
            assert r[1] == x || r[1] == s[1];
          }
        }
      }
    } else if s != [] {
      assert lt(([x] + s)[0], ([x] + s)[1]);
    }
  }

  /** The sort's output is ordered. */
  lemma {:induction false} SortBySorted<T>(s: seq<T>, lt: (T, T) -> bool)
    requires AsymmetricOn(s, lt)
    ensures SortedBy(SortBy(s, lt), lt)
  {
    if s != [] {
      var init, x := s[..|s| - 1], s[|s| - 1];
      assert AsymmetricOn(init, lt) by {
        forall i, j | 0 <= i < |init| && 0 <= j < |init| && lt(init[i], init[j]) ensures !lt(init[j], init[i]) {
          assert init[i] == s[i] && init[j] == s[j];
        }
      }
      SortBySorted(init, lt);
      var sorted := SortBy(init, lt);
      assert AsymmetricOn([x] + sorted, lt) by {
        var xs := [x] + sorted;
        assert multiset(xs) == multiset(s) by {
          assert s == init + [x];
        }
        forall i, j | 0 <= i < |xs| && 0 <= j < |xs| && lt(xs[i], xs[j]) ensures !lt(xs[j], xs[i]) {
          assert xs[i] in multiset(s) && xs[j] in multiset(s);
          var a :| 0 <= a < |s| && s[a] == xs[i];
          var b :| 0 <= b < |s| && s[b] == xs[j];
        }
      }
      InsertSorted(x, sorted, lt);
    }
  }

  predicate NonDecreasing(s: seq<real>) {
    forall i, j :: 0 <= i < j < |s| ==> s[i] <= s[j]
  }

  /** Rearranged sequences have the same elements. */
  lemma SameElements<T>(a: seq<T>, b: seq<T>)
    requires multiset(a) == multiset(b)
    ensures forall x :: x in a <==> x in b
  {
    forall x ensures x in a <==> x in b {
      assert x in a <==> x in multiset(a);
      assert x in b <==> x in multiset(b);
    }
  }

  /** Dropping the head of a sequence removes one copy of it from its multiset. */
  lemma MultisetTail<T>(a: seq<T>)
    requires a != []
    ensures multiset(a[1..]) == multiset(a) - multiset{a[0]}
  {
    assert a == [a[0]] + a[1..];
  }

  /** The head of a non-decreasing sequence is below every element of it. */
  lemma HeadIsLeast(a: seq<real>, x: real)
    requires NonDecreasing(a) && x in multiset(a)
    ensures a[0] <= x
  {
    assert x in a;
    var i :| 0 <= i < |a| && a[i] == x;
    if i > 0 { assert a[0] <= a[i]; }
  }

  lemma TailNonDecreasing(a: seq<real>)
    requires a != [] && NonDecreasing(a)
    ensures NonDecreasing(a[1..])
  {
    var t := a[1..];
    forall x, y | 0 <= x < y < |t| ensures t[x] <= t[y] {
      assert t[x] == a[x + 1] && t[y] == a[y + 1];
    }
  }

  /** A multiset of numbers has exactly one non-decreasing arrangement. */
  lemma {:induction false} SortedArrangementUnique(a: seq<real>, b: seq<real>)
    requires NonDecreasing(a) && NonDecreasing(b)
    requires multiset(a) == multiset(b)
    ensures a == b
  {
    assert |a| == |b| by {
      assert |multiset(a)| == |a| && |multiset(b)| == |b|;
    }
    if a != [] {
      assert a[0] in multiset(a) && b[0] in multiset(b);
      HeadIsLeast(a, b[0]);
      HeadIsLeast(b, a[0]);
      assert a[0] == b[0];
      MultisetTail(a);
      MultisetTail(b);
      TailNonDecreasing(a);
      TailNonDecreasing(b);
      SortedArrangementUnique(a[1..], b[1..]);
      assert a == [a[0]] + a[1..];
      assert b == [b[0]] + b[1..];
    }
  }

  /** The list comprehension `[f(x) for x in s]`. */
  function MapSeq<A, B>(s: seq<A>, f: A -> B): (r: seq<B>)
    ensures |r| == |s| && forall i :: 0 <= i < |s| ==> r[i] == f(s[i])
  {
    seq(|s|, i requires 0 <= i < |s| => f(s[i]))
  }

  lemma RemoveAt<T>(q: seq<T>, j: nat)
    requires j < |q|
    ensures multiset(q[..j] + q[j + 1..]) == multiset(q) - multiset{q[j]}
  {
    assert q == q[..j] + [q[j]] + q[j + 1..];
  }

  lemma MapRemoveAt<A, B>(q: seq<A>, j: nat, f: A -> B)
    requires j < |q|
    ensures multiset(MapSeq(q, f)) == multiset(MapSeq(q[..j] + q[j + 1..], f)) + multiset{f(q[j])}
  {
    var m := MapSeq(q, f);
    assert m == m[..j] + [m[j]] + m[j + 1..];
    assert MapSeq(q[..j] + q[j + 1..], f) == m[..j] + m[j + 1..];
  }

  lemma MapTail<A, B>(p: seq<A>, f: A -> B)
    requires p != []
    ensures multiset(MapSeq(p, f)) == multiset(MapSeq(p[1..], f)) + multiset{f(p[0])}
  {
    assert MapSeq(p, f) == [f(p[0])] + MapSeq(p[1..], f);
  }

  lemma IndexIn<T>(q: seq<T>, x: T, p: seq<T>) returns (j: nat)
    requires p != [] && x == p[0] && multiset(p) == multiset(q)
    ensures j < |q| && q[j] == x
  {
    assert x in multiset(p);
    assert x in q;
    j :| 0 <= j < |q| && q[j] == x;
  }

  /** Rearranging a sequence rearranges its image. */
  lemma {:induction false} PermutationMaps<A, B>(p: seq<A>, q: seq<A>, f: A -> B)
    requires multiset(p) == multiset(q)
    ensures multiset(MapSeq(p, f)) == multiset(MapSeq(q, f))
    decreases |p|
  {
    if p == [] {
      assert |q| == |multiset(q)| == 0;
    } else {
      var x := p[0];
      var j := IndexIn(q, x, p);
      var q' := q[..j] + q[j + 1..];
      RemoveAt(q, j);
      MultisetTail(p);
      PermutationMaps(p[1..], q', f);
      MapRemoveAt(q, j, f);
      MapTail(p, f);
    }
  }

  lemma {:induction false} KeyChain<T>(s: seq<T>, key: T -> real, i: nat, j: nat)
    requires forall k :: 0 < k < |s| ==> key(s[k - 1]) <= key(s[k])
    requires i <= j < |s|
    ensures key(s[i]) <= key(s[j])
    decreases j - i
  {
    if i < j {
      KeyChain(s, key, i, j - 1);
    }
  }

  /** Keys that never decrease from one element to the next never decrease at all. */
  lemma KeysNonDecreasing<T>(s: seq<T>, key: T -> real)
    requires forall k :: 0 < k < |s| ==> key(s[k - 1]) <= key(s[k])
    ensures NonDecreasing(MapSeq(s, key))
  {
    var t := MapSeq(s, key);
    forall i, j | 0 <= i < j < |t| ensures t[i] <= t[j] {
      KeyChain(s, key, i, j);
    }
  }

  /** The list comprehension `[x for x in s if keep(x)]`. */
  function Filter<T>(s: seq<T>, keep: T -> bool): seq<T> {
    if s == [] then [] else Filter(s[..|s| - 1], keep) + (if keep(s[|s| - 1]) then [s[|s| - 1]] else [])
  }

  /** The filter keeps exactly the elements that pass, in their order. */
  lemma {:induction false} FilterKeeps<T>(s: seq<T>, keep: T -> bool)
    ensures |Filter(s, keep)| <= |s|
    ensures forall x :: x in Filter(s, keep) <==> x in s && keep(x)
  {
    if s != [] {
      FilterKeeps(s[..|s| - 1], keep);
      assert s == s[..|s| - 1] + [s[|s| - 1]];
    }
  }

  /** The filter is empty iff no element passes. */
  lemma {:induction false} FilterNonEmpty<T>(s: seq<T>, keep: T -> bool)
    ensures Filter(s, keep) != [] <==> exists k :: 0 <= k < |s| && keep(s[k])
  {
    if s != [] {
      var init := s[..|s| - 1];
      FilterNonEmpty(init, keep);
      if Filter(init, keep) != [] {
        var k :| 0 <= k < |init| && keep(init[k]);
        assert s[k] == init[k];
      }
    }
  }

  lemma MapAppend<A, B>(s: seq<A>, t: seq<A>, f: A -> B)
    ensures MapSeq(s + t, f) == MapSeq(s, f) + MapSeq(t, f)
  {
  }

  /** Mapping one more element of a prefix appends its image. */
  lemma MapSnoc<A, B>(s: seq<A>, i: nat, f: A -> B)
    requires i < |s|
    ensures MapSeq(s[..i + 1], f) == MapSeq(s[..i], f) + [f(s[i])]
  {
    assert s[..i + 1] == s[..i] + [s[i]];
    MapAppend(s[..i], [s[i]], f);
  }

  /** The indices, below `n`, of the elements that pass `keep`, ascending. */
  function IndicesWhere<T>(s: seq<T>, keep: T -> bool, n: nat): (r: seq<int>)
    requires n <= |s|
    ensures forall i :: 0 <= i < |r| ==> 0 <= r[i] < n
    ensures forall i, j :: 0 <= i < j < |r| ==> r[i] < r[j]
  {
    if n == 0 then [] else IndicesWhere(s, keep, n - 1) + (if keep(s[n - 1]) then [n - 1] else [])
  }

  /** Exactly the indices of the passing elements are listed. */
  lemma {:induction false} IndicesWhereExact<T>(s: seq<T>, keep: T -> bool, n: nat, k: int)
    requires n <= |s|
    ensures k in IndicesWhere(s, keep, n) <==> 0 <= k < n && keep(s[k])
  {
    if n > 0 {
      IndicesWhereExact(s, keep, n - 1, k);
    }
  }
}
