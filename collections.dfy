// Python dictionaries keep their keys in insertion order; the ledgers model
// that order as a sequence of keys without repetitions next to a map. Also
// here: Python's stable sort by a key, and sums over a sequence.
module Collections {

  predicate NoDuplicates<T(==,!new)>(s: seq<T>)
  {
    forall i, j :: 0 <= i < j < |s| ==> s[i] != s[j]
  }

  /** The key order after `del d[x]` (or `d.pop(x, None)`). */
  function Remove<T(==,!new)>(s: seq<T>, x: T): (r: seq<T>)
    ensures forall t :: t in r <==> t in s && t != x
    ensures NoDuplicates(s) ==> NoDuplicates(r)
    ensures |r| <= |s|
  {
    if |s| == 0 then []
    else if s[0] == x then Remove(s[1..], x)
    else
      var rest := Remove(s[1..], x);
      if NoDuplicates(s) then
        assert s[0] !in s[1..];
        ConsNoDuplicates(s[0], rest);
        [s[0]] + rest
      else [s[0]] + rest
  }

  /** Removing an element present once shortens the sequence by one. */
  lemma {:induction false} RemoveOnce<T(!new)>(s: seq<T>, x: T)
    requires NoDuplicates(s) && x in s
    ensures |Remove(s, x)| == |s| - 1
  {
    if s[0] == x {
      assert x !in s[1..];
      RemoveAbsent(s[1..], x);
    } else {
      RemoveOnce(s[1..], x);
    }
  }

  /** Removing an absent element changes nothing. */
  lemma {:induction false} RemoveAbsent<T(!new)>(s: seq<T>, x: T)
    requires x !in s
    ensures Remove(s, x) == s
  {
    if |s| > 0 {
      RemoveAbsent(s[1..], x);
      assert s == [s[0]] + s[1..];
    }
  }

  lemma ConsNoDuplicates<T(!new)>(a: T, r: seq<T>)
    requires a !in r && NoDuplicates(r)
    ensures NoDuplicates([a] + r)
  {
    var c := [a] + r;
    forall i, j | 0 <= i < j < |c|
      ensures c[i] != c[j]
    {
      if i == 0 {
        assert c[j] == r[j - 1];
      } else {
        assert c[i] == r[i - 1] && c[j] == r[j - 1];
      }
    }
  }

  /** Removing the keys of `xs` one after the other. */
  function RemoveAll<T(==,!new)>(s: seq<T>, xs: seq<T>): (r: seq<T>)
    ensures forall t :: t in r <==> t in s && t !in xs
    ensures NoDuplicates(s) ==> NoDuplicates(r)
    decreases |xs|
  {
    if |xs| == 0 then s else RemoveAll(Remove(s, xs[0]), xs[1..])
  }

  /** The key order after `d[x] = v`: a new key goes last, an existing one keeps its place. */
  function Insert<T(==,!new)>(s: seq<T>, x: T): (r: seq<T>)
    ensures forall t :: t in r <==> t in s || t == x
    ensures NoDuplicates(s) ==> NoDuplicates(r)
  {
    if x in s then s else s + [x]
  }

  /** The map after deleting the keys of `xs`. */
  function Without<K(!new), V>(m: map<K, V>, xs: seq<K>): (r: map<K, V>)
    ensures forall k :: k in r <==> k in m && k !in xs
    ensures forall k :: k in r ==> r[k] == m[k]
  {
    map k | k in m && k !in xs :: m[k]
  }

  lemma WithoutStep<K(!new), V>(m: map<K, V>, xs: seq<K>, x: K)
    ensures Without(m, xs + [x]) == Without(m, xs) - {x}
  {
    assert forall k :: k in xs + [x] <==> k in xs || k == x;
  }

  lemma {:induction false} SubsetCardinality<T>(a: set<T>, b: set<T>)
    requires a <= b
    ensures |a| <= |b|
  {
    if a != {} {
      var x :| x in a;
      SubsetCardinality(a - {x}, b - {x});
    }
  }

  predicate SortedBy<T>(s: seq<T>, key: T -> real)
  {
    forall i, j :: 0 <= i < j < |s| ==> key(s[i]) <= key(s[j])
  }

  /** Puts `x` after every element at the end of `s` whose key is not above its own. */
  function InsertBy<T>(s: seq<T>, x: T, key: T -> real): (r: seq<T>)
    ensures multiset(r) == multiset(s) + multiset{x} && |r| == |s| + 1
  {
    if |s| == 0 then [x]
    else if key(x) < key(s[|s| - 1]) then
      assert s == s[..|s| - 1] + [s[|s| - 1]];
      InsertBy(s[..|s| - 1], x, key) + [s[|s| - 1]]
    else s + [x]
  }

  /** Inserting into a sorted list keeps it sorted; no key ends up above that of `x` or the old last element. */
  lemma {:induction false} InsertKeepsOrder<T>(s: seq<T>, x: T, key: T -> real)
    requires SortedBy(s, key)
    ensures SortedBy(InsertBy(s, x, key), key)
    ensures forall i :: 0 <= i < |s| + 1 ==> key(InsertBy(s, x, key)[i]) <= key(x) ||
                                              (|s| > 0 && key(InsertBy(s, x, key)[i]) <= key(s[|s| - 1]))
  {
    if |s| > 0 && key(x) < key(s[|s| - 1]) {
      var front := s[..|s| - 1];
      PrefixSorted(s, key);
      InsertKeepsOrder(front, x, key);
      var q := InsertBy(front, x, key);
      forall i | 0 <= i < |q|
        ensures key(q[i]) <= key(s[|s| - 1])
      {
        if |front| > 0 && key(q[i]) <= key(front[|front| - 1]) {
          assert front[|front| - 1] == s[|s| - 2];
        }
      }
      SnocSorted(q, s[|s| - 1], key);
      assert InsertBy(s, x, key) == q + [s[|s| - 1]];
    } else {
      forall i | 0 <= i < |s|
        ensures key(s[i]) <= key(x)
      {
        if i < |s| - 1 {
          assert key(s[i]) <= key(s[|s| - 1]);
        }
      }
      SnocSorted(s, x, key);
      assert InsertBy(s, x, key) == s + [x];
    }
  }

  lemma PrefixSorted<T>(s: seq<T>, key: T -> real)
    requires SortedBy(s, key) && |s| > 0
    ensures SortedBy(s[..|s| - 1], key)
  {
    var front := s[..|s| - 1];
    forall i, j | 0 <= i < j < |front|
      ensures key(front[i]) <= key(front[j])
    {
      assert front[i] == s[i] && front[j] == s[j];
    }
  }

  /** A sorted list followed by an element whose key bounds them all is sorted. */
  lemma SnocSorted<T>(s: seq<T>, x: T, key: T -> real)
    requires SortedBy(s, key)
    requires forall i :: 0 <= i < |s| ==> key(s[i]) <= key(x)
    ensures SortedBy(s + [x], key)
    ensures forall i :: 0 <= i < |s| + 1 ==> key((s + [x])[i]) <= key(x)
  {
    var r := s + [x];
    forall i, j | 0 <= i < j < |r|
      ensures key(r[i]) <= key(r[j])
    {
      assert r[i] == s[i];
      if j < |s| {
        assert r[j] == s[j];
      }
    }
    forall i | 0 <= i < |r|
      ensures key(r[i]) <= key(x)
    {
      if i < |s| {
        assert r[i] == s[i];
      }
    }
  }

  /**
   * `sorted(s, key=key)`: an insertion sort that places each element after
   * the earlier ones with an equal key, so ties keep their order.
   */
  function SortBy<T>(s: seq<T>, key: T -> real): (r: seq<T>)
    ensures multiset(r) == multiset(s) && |r| == |s|
  {
    if |s| == 0 then []
    else
      assert s == s[..|s| - 1] + [s[|s| - 1]];
      InsertBy(SortBy(s[..|s| - 1], key), s[|s| - 1], key)
  }

  lemma {:induction false} SortByOrders<T>(s: seq<T>, key: T -> real)
    ensures SortedBy(SortBy(s, key), key)
  {
    if |s| > 0 {
      SortByOrders(s[..|s| - 1], key);
      InsertKeepsOrder(SortBy(s[..|s| - 1], key), s[|s| - 1], key);
    }
  }

  /** `sum(f(x) for x in s)`. */
  function SumBy<T>(s: seq<T>, f: T -> real): real
  {
    if |s| == 0 then 0.0 else SumBy(s[..|s| - 1], f) + f(s[|s| - 1])
  }

  lemma {:induction false} SumByConcat<T>(a: seq<T>, b: seq<T>, f: T -> real)
    ensures SumBy(a + b, f) == SumBy(a, f) + SumBy(b, f)
  {
    if |b| > 0 {
      SumByConcat(a, b[..|b| - 1], f);
      assert (a + b)[..|a + b| - 1] == a + b[..|b| - 1];
    } else {
      assert a + b == a;
    }
  }

  /** A sum does not depend on the order of its terms. */
  lemma {:induction false} SumByPermutation<T>(s: seq<T>, t: seq<T>, f: T -> real)
    requires multiset(s) == multiset(t)
    ensures SumBy(s, f) == SumBy(t, f)
  {
    if |s| > 0 {
      var x := s[|s| - 1];
      var front := s[..|s| - 1];
      assert s == front + [x];
      assert x in multiset(t);
      var k :| 0 <= k < |t| && t[k] == x;
      var rest := t[..k] + t[k + 1..];
      RemoveAtMultiset(t, k);
      assert multiset(s) == multiset(front) + multiset{x};
      calc {
        multiset(front);
        multiset(front) + multiset{x} - multiset{x};
        multiset(t) - multiset{x};
        multiset(rest) + multiset{x} - multiset{x};
        multiset(rest);
      }
      SumByPermutation(front, rest, f);
      SumByRemoveAt(t, k, f);
    }
  }

  /** Each element of a sequence without repetitions occurs in it at most once. */
  lemma {:induction false} DistinctCount<T(!new)>(s: seq<T>, x: T)
    requires NoDuplicates(s)
    ensures multiset(s)[x] <= 1
  {
    if |s| > 0 {
      var front := s[..|s| - 1];
      assert s == front + [s[|s| - 1]];
      DistinctCount(front, x);
      if x == s[|s| - 1] {
        assert x !in front;
      }
    }
  }

  /** An element found at two positions occurs at least twice. */
  lemma RepeatCount<T>(s: seq<T>, i: nat, j: nat)
    requires i < j < |s| && s[i] == s[j]
    ensures multiset(s)[s[i]] >= 2
  {
    assert s == s[..j] + [s[j]] + s[j + 1..];
    assert s[i] == s[..j][i];
  }

  /** Reordering a sequence without repetitions leaves none. */
  lemma PermutationNoDuplicates<T(!new)>(a: seq<T>, b: seq<T>)
    requires multiset(a) == multiset(b) && NoDuplicates(a)
    ensures NoDuplicates(b)
  {
    forall i, j | 0 <= i < j < |b|
      ensures b[i] != b[j]
    {
      if b[i] == b[j] {
        RepeatCount(b, i, j);
        DistinctCount(a, b[i]);
      }
    }
  }

  lemma RemoveAtMultiset<T>(t: seq<T>, k: nat)
    requires k < |t|
    ensures multiset(t) == multiset(t[..k] + t[k + 1..]) + multiset{t[k]}
  {
    assert t == t[..k] + [t[k]] + t[k + 1..];
  }

  /** Taking one term out of a sum takes its value out. */
  lemma SumByRemoveAt<T>(t: seq<T>, k: nat, f: T -> real)
    requires k < |t|
    ensures SumBy(t, f) == SumBy(t[..k] + t[k + 1..], f) + f(t[k])
  {
    var head, rest := t[..k + 1], t[k + 1..];
    assert head + rest == t;
    assert head[..k] == t[..k];
    assert SumBy(head, f) == SumBy(t[..k], f) + f(t[k]);
    SumByConcat(head, rest, f);
    SumByConcat(t[..k], rest, f);
  }
}
