/** Order-preserving filtering, the `Array.prototype.filter` the source uses throughout. */
module Seqs {

  /** The elements of `s` that satisfy `p`, in their original order. Its properties
      are the lemmas below, so that a caller pays only for the ones it uses. */
  function Filter<T>(s: seq<T>, p: T -> bool): seq<T>
  {
    if s == [] then [] else (if p(s[0]) then [s[0]] else []) + Filter(s[1..], p)
  }

  /** An element is kept exactly when it is in `s` and passes `p`; nothing is added. */
  lemma {:induction false} FilterMembers<T>(s: seq<T>, p: T -> bool)
    ensures |Filter(s, p)| <= |s|
    ensures forall x :: x in Filter(s, p) <==> x in s && p(x)
  {
    if s != [] {
      FilterMembers(s[1..], p);
      assert Filter(s, p) == (if p(s[0]) then [s[0]] else []) + Filter(s[1..], p);
      assert s == [s[0]] + s[1..];
    }
  }

  /** Every element that passes `p` is kept as often as it occurs in `s`, any other
      not at all. */
  lemma {:induction false} FilterCounts<T>(s: seq<T>, p: T -> bool)
    ensures forall x :: multiset(Filter(s, p))[x] == if p(x) then multiset(s)[x] else 0
  {
    if s != [] {
      FilterCounts(s[1..], p);
      assert s == [s[0]] + s[1..];
      assert Filter(s, p) == (if p(s[0]) then [s[0]] else []) + Filter(s[1..], p);
    }
  }

  /** `a` can be obtained from `b` by deleting elements, so it keeps `b`'s order. */
  predicate IsSubsequence<T(==)>(a: seq<T>, b: seq<T>)
    decreases |b|
  {
    a == [] || (b != [] && if a[0] == b[0] then IsSubsequence(a[1..], b[1..]) else IsSubsequence(a, b[1..]))
  }

  lemma {:induction false} FilterIsSubsequence<T>(s: seq<T>, p: T -> bool)
    ensures IsSubsequence(Filter(s, p), s)
  {
    if s != [] {
      FilterIsSubsequence(s[1..], p);
      var r := Filter(s, p);
      if p(s[0]) {
        assert r == [s[0]] + Filter(s[1..], p);
        assert r[1..] == Filter(s[1..], p);
      } else {
        assert r == Filter(s[1..], p);
        if r != [] {
          FilterMembers(s[1..], p);
          assert r[0] in Filter(s[1..], p);
        }
      }
    }
  }

  lemma {:induction false} FilterConcat<T>(a: seq<T>, b: seq<T>, p: T -> bool)
    ensures Filter(a + b, p) == Filter(a, p) + Filter(b, p)
  {
    if a == [] {
      assert a + b == b;
    } else {
      var head := if p(a[0]) then [a[0]] else [];
      assert (a + b)[0] == a[0];
      assert (a + b)[1..] == a[1..] + b;
      FilterConcat(a[1..], b, p);
      assert Filter(a + b, p) == head + Filter(a[1..] + b, p);
      assert Filter(a, p) == head + Filter(a[1..], p);
    }
  }

  /** A filter that every element passes keeps the whole sequence. */
  lemma {:induction false} FilterKeepsAll<T>(s: seq<T>, p: T -> bool)
    requires forall i :: 0 <= i < |s| ==> p(s[i])
    ensures Filter(s, p) == s
  {
    if s != [] {
      FilterKeepsAll(s[1..], p);
    }
  }

  /** Filtering by `p` and by its complement `q` splits `s` into two parts that
      together hold every element exactly as often as `s` does. */
  lemma {:induction false} FilterPartition<T>(s: seq<T>, p: T -> bool, q: T -> bool)
    requires forall x :: q(x) == !p(x)
    ensures multiset(Filter(s, p)) + multiset(Filter(s, q)) == multiset(s)
  {
    if s != [] {
      var x, rest := s[0], s[1..];
      FilterPartition(rest, p, q);
      assert multiset(s) == multiset{x} + multiset(rest) by {
        assert s == [x] + rest;
      }
      if p(x) {
        assert Filter(s, p) == [x] + Filter(rest, p);
        assert Filter(s, q) == Filter(rest, q);
      } else {
        assert Filter(s, p) == Filter(rest, p);
        assert Filter(s, q) == [x] + Filter(rest, q);
      }
    }
  }

  /** No two elements of `s` share a key. */
  predicate DistinctBy<T, K(==)>(s: seq<T>, key: T -> K) {
    forall i, j :: 0 <= i < j < |s| ==> key(s[i]) != key(s[j])
  }

  /** Filtering keeps keys distinct. */
  lemma {:induction false} FilterDistinctBy<T, K>(s: seq<T>, p: T -> bool, key: T -> K)
    requires DistinctBy(s, key)
    ensures DistinctBy(Filter(s, p), key)
  {
    if s != [] {
      var rest := s[1..];
      assert DistinctBy(rest, key) by {
        forall i, j | 0 <= i < j < |rest| ensures key(rest[i]) != key(rest[j]) {
          assert rest[i] == s[i + 1] && rest[j] == s[j + 1];
        }
      }
      FilterDistinctBy(rest, p, key);
      if p(s[0]) {
        forall i | 0 <= i < |rest| ensures key(rest[i]) != key(s[0]) {
          assert rest[i] == s[i + 1];
        }
        PrependDistinctBy(s[0], rest, p, key);
      }
    }
  }

  lemma PrependDistinctBy<T, K>(head: T, rest: seq<T>, p: T -> bool, key: T -> K)
    requires DistinctBy(Filter(rest, p), key)
    requires forall i :: 0 <= i < |rest| ==> key(rest[i]) != key(head)
    ensures DistinctBy([head] + Filter(rest, p), key)
  {
    var tail := Filter(rest, p);
    FilterAll(rest, p, x => key(x) != key(head));
    var r := [head] + tail;
    forall i, j | 0 <= i < j < |r| ensures key(r[i]) != key(r[j]) {
      assert r[j] == tail[j - 1];
      if i > 0 {
        assert r[i] == tail[i - 1];
      }
    }
  }

  /** Every element kept by a filter passes it and has each property all elements had. */
  lemma {:induction false} FilterAll<T>(s: seq<T>, p: T -> bool, q: T -> bool)
    requires forall i :: 0 <= i < |s| ==> q(s[i])
    ensures forall i :: 0 <= i < |Filter(s, p)| ==> p(Filter(s, p)[i]) && q(Filter(s, p)[i])
  {
    if s != [] {
      var rest := s[1..];
      assert forall i :: 0 <= i < |rest| ==> q(rest[i]) by {
        forall i | 0 <= i < |rest| ensures q(rest[i]) {
          assert rest[i] == s[i + 1];
        }
      }
      FilterAll(rest, p, q);
      assert Filter(s, p) == (if p(s[0]) then [s[0]] else []) + Filter(rest, p);
    }
  }

  /** A filter that no element passes keeps nothing. */
  lemma {:induction false} FilterKeepsNone<T>(s: seq<T>, p: T -> bool)
    requires forall i :: 0 <= i < |s| ==> !p(s[i])
    ensures Filter(s, p) == []
  {
    if s != [] {
      FilterKeepsNone(s[1..], p);
    }
  }

  /** Two sequences with distinct keys and no key in common join into one. */
  lemma DistinctByConcat<T, K>(a: seq<T>, b: seq<T>, key: T -> K)
    requires DistinctBy(a, key) && DistinctBy(b, key)
    requires forall i, j :: 0 <= i < |a| && 0 <= j < |b| ==> key(a[i]) != key(b[j])
    ensures DistinctBy(a + b, key)
  {
    var r := a + b;
    forall i, j | 0 <= i < j < |r| ensures key(r[i]) != key(r[j]) {
      if j < |a| {
      } else if i < |a| {
        assert r[i] == a[i] && r[j] == b[j - |a|];
      } else {
        assert r[i] == b[i - |a|] && r[j] == b[j - |a|];
      }
    }
  }

  /** Two filters that agree on every element of `s` keep the same elements. */
  lemma {:induction false} FilterSame<T>(s: seq<T>, p: T -> bool, q: T -> bool)
    requires forall i :: 0 <= i < |s| ==> p(s[i]) == q(s[i])
    ensures Filter(s, p) == Filter(s, q)
  {
    if s != [] {
      FilterSame(s[1..], p, q);
    }
  }
}
