/**
 * Sequence utilities shared by the model: Python's slice `s[:n]`, the stable
 * descending sort that `sorted(..., reverse=True)` and `Counter.most_common`
 * perform, first-occurrence de-duplication (`GROUP BY`, `Counter` keys) and
 * `str.join`.
 */
module Collections {

  datatype Option<+T> = None | Some(value: T)

  ghost predicate NoDuplicates<T>(s: seq<T>) {
    forall i, j :: 0 <= i < j < |s| ==> s[i] != s[j]
  }

  /** Python's `s[:n]` for a non-negative `n`. */
  function Prefix<T>(s: seq<T>, n: nat): (r: seq<T>)
    ensures |r| == if n < |s| then n else |s|
    ensures r == s[..|r|]
  {
    if n < |s| then s[..n] else s
  }

  /** A prefix of a sorted sequence without duplicates is sorted, has no duplicates and draws from it. */
  lemma PrefixShape<T>(s: seq<T>, n: nat, key: T -> real)
    requires NoDuplicates(s)
    requires NonIncreasing(s, key)
    ensures NoDuplicates(Prefix(s, n))
    ensures NonIncreasing(Prefix(s, n), key)
    ensures forall x :: x in Prefix(s, n) ==> x in s
  {
    var r := Prefix(s, n);
    forall i, j | 0 <= i < j < |r| ensures r[i] != r[j] && key(r[i]) >= key(r[j]) {
      assert r[i] == s[i] && r[j] == s[j];
    }
  }

  lemma PrefixMembers<T>(s: seq<T>, n: nat)
    ensures forall x :: x in Prefix(s, n) ==> x in s
  {
    var r := Prefix(s, n);
    forall x | x in r ensures x in s {
      var i :| 0 <= i < |r| && r[i] == x;
      assert s[i] == x;
    }
  }

  lemma PrefixSubMultiset<T>(s: seq<T>, n: nat)
    ensures multiset(Prefix(s, n)) <= multiset(s)
  {
    var r := Prefix(s, n);
    assert s == r + s[|r|..];
  }

  ghost predicate NonIncreasing<T>(s: seq<T>, key: T -> real) {
    forall i, j :: 0 <= i < j < |s| ==> key(s[i]) >= key(s[j])
  }

  /** Cutting a sorted sequence keeps elements at least as large as every one it drops. */
  lemma PrefixKeepsLargest<T>(s: seq<T>, key: T -> real, n: nat, x: T)
    requires NonIncreasing(s, key)
    requires x in s && x !in Prefix(s, n)
    ensures |Prefix(s, n)| == n
    ensures forall i :: 0 <= i < n ==> key(s[i]) >= key(x)
  {
    var j :| 0 <= j < |s| && s[j] == x;
    assert j >= n;
  }

  lemma HeadIsLargest<T>(s: seq<T>, key: T -> real, x: T)
    requires NonIncreasing(s, key)
    requires x in s
    ensures key(s[0]) >= key(x)
  {
    var j :| 0 <= j < |s| && s[j] == x;
  }

  /** Puts `x` in front of the first element whose key is not greater than its own. */
  function Insert<T>(x: T, s: seq<T>, key: T -> real): (r: seq<T>)
    ensures multiset(r) == multiset(s) + multiset{x}
  {
    if s == [] || key(x) >= key(s[0]) then
      [x] + s
    else
      assert s == [s[0]] + s[1..];
      [s[0]] + Insert(x, s[1..], key)
  }

  lemma {:induction false} InsertSorted<T>(x: T, s: seq<T>, key: T -> real)
    requires NonIncreasing(s, key)
    ensures NonIncreasing(Insert(x, s, key), key)
  {
    if s != [] && key(x) < key(s[0]) {
      var rest := Insert(x, s[1..], key);
      assert NonIncreasing(rest, key) by {
        InsertSorted(x, s[1..], key);
      }
      assert forall i :: 0 <= i < |rest| ==> key(rest[i]) <= key(s[0]) by {
        InsertBounded(x, s[1..], key, key(s[0]));
      }
      ConsSorted(s[0], rest, key);
    }
  }

  /** Inserting an element no larger than a bound into a sequence bounded by it stays bounded. */
  lemma {:induction false} InsertBounded<T>(x: T, s: seq<T>, key: T -> real, b: real)
    requires key(x) <= b
    requires forall i :: 0 <= i < |s| ==> key(s[i]) <= b
    ensures forall i :: 0 <= i < |Insert(x, s, key)| ==> key(Insert(x, s, key)[i]) <= b
  {
    if s != [] && key(x) < key(s[0]) {
      InsertBounded(x, s[1..], key, b);
      var r := Insert(x, s, key);
      assert r == [s[0]] + Insert(x, s[1..], key);
      forall i | 1 <= i < |r| ensures key(r[i]) <= b {
        assert r[i] == Insert(x, s[1..], key)[i - 1];
      }
    }
  }

  /** A head no smaller than every element of a sorted tail keeps the sequence sorted. */
  lemma ConsSorted<T>(h: T, t: seq<T>, key: T -> real)
    requires NonIncreasing(t, key)
    requires forall i :: 0 <= i < |t| ==> key(t[i]) <= key(h)
    ensures NonIncreasing([h] + t, key)
  {
    var r := [h] + t;
    forall i, j | 0 <= i < j < |r| ensures key(r[i]) >= key(r[j]) {
      assert r[j] == t[j - 1];
      if i > 0 {
        assert r[i] == t[i - 1];
      }
    }
  }

  /**
   * Insertion sort by non-increasing key. Elements with equal keys keep their
   * input order (see SortDescStable), as Python's `sorted(..., reverse=True)`
   * and `Counter.most_common` do.
   */
  function SortDesc<T>(s: seq<T>, key: T -> real): (r: seq<T>)
    ensures multiset(r) == multiset(s)
    ensures NonIncreasing(r, key)
  {
    if s == [] then [] else
      assert s == [s[0]] + s[1..];
      InsertSorted(s[0], SortDesc(s[1..], key), key);
      Insert(s[0], SortDesc(s[1..], key), key)
  }

  /** Sorting keeps exactly the elements it was given. */
  lemma SortDescMembers<T>(s: seq<T>, key: T -> real)
    ensures forall x :: x in SortDesc(s, key) <==> x in s
  {
    var r := SortDesc(s, key);
    forall x ensures x in r <==> x in s {
      assert x in r <==> x in multiset(r);
      assert x in s <==> x in multiset(s);
    }
  }

  /** The elements of `s` whose key is `k`, in order. */
  function WithKey<T>(s: seq<T>, key: T -> real, k: real): seq<T> {
    if s == [] then []
    else if key(s[0]) == k then [s[0]] + WithKey(s[1..], key, k)
    else WithKey(s[1..], key, k)
  }

  lemma {:induction false} InsertStable<T>(x: T, s: seq<T>, key: T -> real, k: real)
    ensures WithKey(Insert(x, s, key), key, k)
         == if key(x) == k then [x] + WithKey(s, key, k) else WithKey(s, key, k)
  {
    if s == [] || key(x) >= key(s[0]) {
      assert ([x] + s)[1..] == s;
    } else {
      InsertStable(x, s[1..], key, k);
      assert ([s[0]] + Insert(x, s[1..], key))[1..] == Insert(x, s[1..], key);
    }
  }

  /** Sorting never reorders two elements that have the same key. */
  lemma {:induction false} SortDescStable<T>(s: seq<T>, key: T -> real, k: real)
    ensures WithKey(SortDesc(s, key), key, k) == WithKey(s, key, k)
  {
    if s != [] {
      SortDescStable(s[1..], key, k);
      InsertStable(s[0], SortDesc(s[1..], key), key, k);
    }
  }

  /** The distinct elements of `s`, each at the place of its first occurrence. */
  function Distinct<T(==,!new)>(s: seq<T>): (r: seq<T>)
    ensures NoDuplicates(r)
    ensures forall x :: x in r <==> x in s
    ensures |r| <= |s|
  {
    if s == [] then []
    else
      var d := Distinct(s[..|s| - 1]);
      assert forall x :: x in s <==> x in s[..|s| - 1] || x == s[|s| - 1];
      if s[|s| - 1] in d then d else d + [s[|s| - 1]]
  }

  /** A sub-multiset of a sequence without duplicates has no duplicates either. */
  lemma SubMultisetNoDuplicates<T>(r: seq<T>, s: seq<T>)
    requires NoDuplicates(s)
    requires multiset(r) <= multiset(s)
    ensures NoDuplicates(r)
  {
    forall i, j | 0 <= i < j < |r| ensures r[i] != r[j] {
      if r[i] == r[j] {
        var x := r[i];
        assert multiset(r)[x] >= 2 by {
          assert r == r[..j] + [x] + r[j + 1..];
          assert r[..j][i] == x;
          assert multiset(r[..j])[x] >= 1;
        }
        MultiplicityAtMostOne(s, x);
        assert false;
      }
    }
  }

  lemma {:induction false} MultiplicityAtMostOne<T>(s: seq<T>, x: T)
    requires NoDuplicates(s)
    ensures multiset(s)[x] <= 1
  {
    if s != [] {
      assert s == [s[0]] + s[1..];
      MultiplicityAtMostOne(s[1..], x);
      if s[0] == x {
        assert x !in s[1..];
      }
    }
  }

  /** The elements of `s` that satisfy `p`, in order (a `WHERE` clause, a list comprehension's `if`). */
  function Filter<T(!new)>(s: seq<T>, p: T -> bool): (r: seq<T>)
    ensures |r| <= |s|
    ensures multiset(r) <= multiset(s)
    ensures forall x :: x in r <==> x in s && p(x)
  {
    if s == [] then []
    else
      assert s == [s[0]] + s[1..];
      if p(s[0]) then [s[0]] + Filter(s[1..], p) else Filter(s[1..], p)
  }

  /** A filter that every element passes keeps the whole sequence, in order. */
  lemma {:induction false} FilterKeepsAll<T(!new)>(s: seq<T>, p: T -> bool)
    requires forall x :: x in s ==> p(x)
    ensures Filter(s, p) == s
  {
    if s != [] {
      assert s == [s[0]] + s[1..];
      FilterKeepsAll(s[1..], p);
    }
  }

  /** `[f(x) for x in s]`. */
  function Map<T, U>(s: seq<T>, f: T -> U): (r: seq<U>)
    ensures |r| == |s|
    ensures forall i :: 0 <= i < |s| ==> r[i] == f(s[i])
  {
    seq(|s|, i requires 0 <= i < |s| => f(s[i]))
  }

  /** Python's `sep.join(parts)`. */
  function Join(parts: seq<string>, sep: string): (r: string)
    ensures parts == [] ==> r == ""
    ensures |parts| == 1 ==> r == parts[0]
  {
    if parts == [] then ""
    else if |parts| == 1 then parts[0]
    else parts[0] + sep + Join(parts[1..], sep)
  }
}
