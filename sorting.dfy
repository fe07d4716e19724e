/** Python's `list.sort(key=..., reverse=True)` and `sorted(...)`: a stable sort on a real-valued key.
    Every ordering step of the dashboards and scrapers goes through SortDesc: a descending sort keeps
    elements with equal keys in their original order, exactly as Python's stable sort does with
    `reverse=True`; an ascending sort is SortDesc on the negated key. */
module Sorting {

  /** `s` is in non-increasing order of `key`. */
  predicate SortedDesc<T>(s: seq<T>, key: T -> real)
  {
    forall i, j :: 0 <= i < j < |s| ==> key(s[i]) >= key(s[j])
  }

  /** Inserts `x` in front of the first element whose key does not exceed x's. */
  function Insert<T>(x: T, s: seq<T>, key: T -> real): (r: seq<T>)
    ensures multiset(r) == multiset(s) + multiset{x}
    ensures |r| == |s| + 1
  {
    if s == [] || key(x) >= key(s[0]) then
      [x] + s
    else
      assert s == [s[0]] + s[1..];
      [s[0]] + Insert(x, s[1..], key)
  }

  lemma SortedCons<T>(e: T, s: seq<T>, key: T -> real)
    requires SortedDesc(s, key)
    requires forall y :: y in s ==> key(e) >= key(y)
    ensures SortedDesc([e] + s, key)
  {
    var r := [e] + s;
    forall i, j | 0 <= i < j < |r| ensures key(r[i]) >= key(r[j]) {
      if i == 0 {
        assert r[j] == s[j - 1];
      } else {
        assert r[i] == s[i - 1] && r[j] == s[j - 1];
      }
    }
  }

  lemma {:induction false} InsertSorted<T>(x: T, s: seq<T>, key: T -> real)
    requires SortedDesc(s, key)
    ensures SortedDesc(Insert(x, s, key), key)
  {
    if s == [] || key(x) >= key(s[0]) {
      forall y | y in s ensures key(x) >= key(y) {
        var j :| 0 <= j < |s| && s[j] == y;
      }
      SortedCons(x, s, key);
    } else {
      var rest := Insert(x, s[1..], key);
      assert SortedDesc(s[1..], key);
      InsertSorted(x, s[1..], key);
      forall y | y in rest ensures key(s[0]) >= key(y) {
        assert y in multiset(rest);
        if y != x {
          assert y in multiset(s[1..]);
          var j :| 0 <= j < |s[1..]| && s[1..][j] == y;
          assert s[j + 1] == y;
        }
      }
      SortedCons(s[0], rest, key);
    }
  }

  /** Stable insertion sort by non-increasing key. */
  function SortDesc<T>(s: seq<T>, key: T -> real): (r: seq<T>)
    ensures multiset(r) == multiset(s)
    ensures |r| == |s|
  {
    if s == [] then []
    else
      assert s == [s[0]] + s[1..];
      Insert(s[0], SortDesc(s[1..], key), key)
  }

  lemma {:induction false} SortDescSorted<T>(s: seq<T>, key: T -> real)
    ensures SortedDesc(SortDesc(s, key), key)
  {
    if s != [] {
      SortDescSorted(s[1..], key);
      InsertSorted(s[0], SortDesc(s[1..], key), key);
    }
  }

  /** One field of every element, in order: the `code` of each summary item, say. */
  function Project<T, U>(s: seq<T>, f: T -> U): (r: seq<U>)
    ensures |r| == |s|
    ensures forall i :: 0 <= i < |s| ==> r[i] == f(s[i])
  {
    if s == [] then [] else [f(s[0])] + Project(s[1..], f)
  }

  /** Inserting an element adds its field to the projected fields, wherever it lands. */
  lemma {:induction false} ProjectInsert<T, U>(x: T, s: seq<T>, key: T -> real, f: T -> U)
    ensures multiset(Project(Insert(x, s, key), f)) == multiset{f(x)} + multiset(Project(s, f))
  {
    if s != [] && key(x) < key(s[0]) {
      var rest := Insert(x, s[1..], key);
      assert ([s[0]] + rest)[1..] == rest;
      ProjectInsert(x, s[1..], key, f);
    }
  }

  /** Sorting permutes the projected fields: the codes of a sorted summary are those of the input. */
  lemma {:induction false} ProjectSort<T, U>(s: seq<T>, key: T -> real, f: T -> U)
    ensures multiset(Project(SortDesc(s, key), f)) == multiset(Project(s, f))
  {
    if s != [] {
      ProjectSort(s[1..], key, f);
      ProjectInsert(s[0], SortDesc(s[1..], key), key, f);
    }
  }

  /** `[e]` when `e` carries key `k`, otherwise `[]`. */
  function Pick<T>(e: T, key: T -> real, k: real): seq<T>
  {
    if key(e) == k then [e] else []
  }

  /** The elements of `s` whose key is `k`, in their order in `s`. */
  function WithKey<T>(s: seq<T>, key: T -> real, k: real): seq<T>
  {
    if s == [] then [] else Pick(s[0], key, k) + WithKey(s[1..], key, k)
  }

  lemma WithKeyCons<T>(e: T, s: seq<T>, key: T -> real, k: real)
    ensures WithKey([e] + s, key, k) == Pick(e, key, k) + WithKey(s, key, k)
  {
    assert ([e] + s)[1..] == s;
  }

  /** Inserting `x` puts it ahead of every element with the same key. */
  lemma {:induction false} WithKeyInsert<T>(x: T, s: seq<T>, key: T -> real, k: real)
    ensures WithKey(Insert(x, s, key), key, k) == Pick(x, key, k) + WithKey(s, key, k)
  {
    if s == [] || key(x) >= key(s[0]) {
      WithKeyCons(x, s, key, k);
    } else {
      var rest := Insert(x, s[1..], key);
      var tail := WithKey(s[1..], key, k);
      assert Insert(x, s, key) == [s[0]] + rest;
      WithKeyCons(s[0], rest, key, k);
      WithKeyInsert(x, s[1..], key, k);
      assert WithKey(s, key, k) == Pick(s[0], key, k) + tail;
      if key(x) == k {
        assert Pick(s[0], key, k) == [];
        assert WithKey(s, key, k) == tail;
      } else {
        assert Pick(x, key, k) == [];
        assert WithKey(rest, key, k) == tail;
      }
    }
  }

  /** Stability: for every key value, the elements carrying it keep their original relative order. */
  lemma {:induction false} SortDescIsStable<T>(s: seq<T>, key: T -> real, k: real)
    ensures WithKey(SortDesc(s, key), key, k) == WithKey(s, key, k)
  {
    if s != [] {
      SortDescIsStable(s[1..], key, k);
      WithKeyInsert(s[0], SortDesc(s[1..], key), key, k);
    }
  }

  /** No two different elements of `s` share a key. */
  predicate DistinctKeys<T(==)>(s: seq<T>, key: T -> real)
  {
    forall x, y :: x in s && y in s && key(x) == key(y) ==> x == y
  }

  lemma HeadHasMaxKey<T>(a: seq<T>, key: T -> real, y: T)
    requires SortedDesc(a, key) && y in a
    ensures key(a[0]) >= key(y)
  {
    var j :| 0 <= j < |a| && a[j] == y;
  }

  lemma SameTail<T>(a: seq<T>, b: seq<T>)
    requires a != [] && b != [] && a[0] == b[0]
    requires multiset(a) == multiset(b)
    ensures multiset(a[1..]) == multiset(b[1..])
  {
    assert a == [a[0]] + a[1..];
    assert b == [b[0]] + b[1..];
    assert multiset(a) == multiset{a[0]} + multiset(a[1..]);
    assert multiset(b) == multiset{a[0]} + multiset(b[1..]);
    forall e ensures multiset(a[1..])[e] == multiset(b[1..])[e] {
      assert multiset(a)[e] == multiset{a[0]}[e] + multiset(a[1..])[e];
      assert multiset(b)[e] == multiset{a[0]}[e] + multiset(b[1..])[e];
    }
  }

  /** A sorted sequence is determined by its multiset when keys are distinct. */
  lemma {:induction false} SortedUnique<T>(a: seq<T>, b: seq<T>, key: T -> real)
    requires SortedDesc(a, key) && SortedDesc(b, key)
    requires multiset(a) == multiset(b)
    requires DistinctKeys(a, key)
    ensures a == b
    decreases |a|
  {
    assert |a| == |multiset(a)| == |b|;
    if a != [] {
      assert a[0] in multiset(b) && b[0] in multiset(a);
      HeadHasMaxKey(a, key, b[0]);
      HeadHasMaxKey(b, key, a[0]);
      assert a[0] == b[0];
      SameTail(a, b);
      assert DistinctKeys(a[1..], key) by {
        forall x, y | x in a[1..] && y in a[1..] && key(x) == key(y) ensures x == y {
          assert x in a && y in a;
        }
      }
      SortedUnique(a[1..], b[1..], key);
      assert a == [a[0]] + a[1..] && b == [b[0]] + b[1..];
    }
  }

  /** The storage order of the input does not matter when keys are distinct. */
  lemma SortDescIgnoresInputOrder<T>(a: seq<T>, b: seq<T>, key: T -> real)
    requires multiset(a) == multiset(b)
    requires DistinctKeys(a, key)
    ensures SortDesc(a, key) == SortDesc(b, key)
  {
    var ra, rb := SortDesc(a, key), SortDesc(b, key);
    SortDescSorted(a, key);
    SortDescSorted(b, key);
    forall x, y | x in ra && y in ra && key(x) == key(y) ensures x == y {
      assert x in multiset(ra) && y in multiset(ra);
      assert x in a && y in a;
    }
    SortedUnique(ra, rb, key);
  }
}
