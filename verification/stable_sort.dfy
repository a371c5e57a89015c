/**
 * The stable sort that generate_camera_positions obtains from Python's
 * built-in `sorted(..., key=...)`: the result is non-decreasing in the
 * key, a permutation of the input, and elements with equal keys keep
 * their input order. It is written as an insertion sort and then shown to
 * be the only sequence with those three properties.
 */
module StableSort {

  predicate SortedBy<T>(s: seq<T>, key: T -> real)
  {
    forall i, j :: 0 <= i < j < |s| ==> key(s[i]) <= key(s[j])
  }

  /** x placed in front of the first element whose key is at least key(x). */
  function Insert<T>(x: T, s: seq<T>, key: T -> real): (r: seq<T>)
    ensures multiset(r) == multiset(s) + multiset{x}
  {
    if |s| == 0 || key(x) <= key(s[0]) then [x] + s
    else
      assert s == [s[0]] + s[1..];
      [s[0]] + Insert(x, s[1..], key)
  }

  /** Inserting into a sorted sequence keeps it sorted. */
  lemma {:induction false} InsertSorted<T>(x: T, s: seq<T>, key: T -> real)
    requires SortedBy(s, key)
    ensures SortedBy(Insert(x, s, key), key)
  {
    if |s| > 0 && key(x) > key(s[0]) {
      var rest := Insert(x, s[1..], key);
      InsertSorted(x, s[1..], key);
      forall j | 0 <= j < |rest|
        ensures key(s[0]) <= key(rest[j])
      {
        assert rest[j] in multiset(rest);
        if rest[j] != x {
          assert rest[j] in multiset(s[1..]);
          var m :| 0 <= m < |s[1..]| && s[1..][m] == rest[j];
          assert s[m + 1] == rest[j];
        }
      }
    }
  }

  /** The stable sort of s by key: the first element is inserted last, ahead of its equals. */
  function SortBy<T>(s: seq<T>, key: T -> real): (r: seq<T>)
    ensures multiset(r) == multiset(s)
    ensures SortedBy(r, key)
  {
    if |s| == 0 then []
    else
      var sorted := SortBy(s[1..], key);
      assert s == [s[0]] + s[1..];
      InsertSorted(s[0], sorted, key);
      Insert(s[0], sorted, key)
  }

  lemma SortByLength<T>(s: seq<T>, key: T -> real)
    ensures |SortBy(s, key)| == |s|
  {
    assert |multiset(SortBy(s, key))| == |multiset(s)|;
  }

  /** The elements of s whose key is k, in their order in s. */
  function Filter<T>(s: seq<T>, key: T -> real, k: real): (r: seq<T>)
    ensures |r| <= |s|
  {
    if |s| == 0 then []
    else (if key(s[0]) == k then [s[0]] else []) + Filter(s[1..], key, k)
  }

  /** Inserting x adds x at the front of its own key class and changes no other class. */
  lemma {:induction false} FilterInsert<T>(x: T, s: seq<T>, key: T -> real, k: real)
    ensures Filter(Insert(x, s, key), key, k)
         == (if key(x) == k then [x] else []) + Filter(s, key, k)
  {
    if |s| == 0 || key(x) <= key(s[0]) {
      assert ([x] + s)[1..] == s;
    } else {
      var rest := Insert(x, s[1..], key);
      FilterInsert(x, s[1..], key, k);
      assert ([s[0]] + rest)[1..] == rest;
      assert Filter(Insert(x, s, key), key, k) == (if key(s[0]) == k then [s[0]] else []) + Filter(rest, key, k);
      // x and s[0] have different keys, so at most one of them is in the class of k.
      if key(s[0]) == k {
        assert Filter(rest, key, k) == Filter(s[1..], key, k);
      }
    }
  }

  /** Stability: sorting leaves the order within every key class unchanged. */
  lemma {:induction false} SortByStable<T>(s: seq<T>, key: T -> real, k: real)
    ensures Filter(SortBy(s, key), key, k) == Filter(s, key, k)
  {
    if |s| > 0 {
      SortByStable(s[1..], key, k);
      FilterInsert(s[0], SortBy(s[1..], key), key, k);
    }
  }

  lemma {:induction false} FilterNonEmpty<T>(s: seq<T>, key: T -> real, k: real)
    requires |Filter(s, key, k)| > 0
    ensures exists i :: 0 <= i < |s| && key(s[i]) == k
  {
    if key(s[0]) != k {
      FilterNonEmpty(s[1..], key, k);
      var i :| 0 <= i < |s[1..]| && key(s[1..][i]) == k;
      assert s[i + 1] == s[1..][i];
    }
  }

  /** The first element is in its own key class. */
  lemma HeadInOwnClass<T>(s: seq<T>, key: T -> real)
    requires |s| > 0
    ensures |Filter(s, key, key(s[0]))| > 0
  {
    assert Filter(s, key, key(s[0])) == [s[0]] + Filter(s[1..], key, key(s[0]));
  }

  /** Two non-empty sorted sequences with the same key classes start with the same element. */
  lemma SameHead<T>(a: seq<T>, b: seq<T>, key: T -> real)
    requires |a| > 0 && |b| > 0
    requires SortedBy(a, key) && SortedBy(b, key)
    requires forall k :: Filter(a, key, k) == Filter(b, key, k)
    ensures a[0] == b[0]
  {
    var ka, kb := key(a[0]), key(b[0]);
    HeadInOwnClass(a, key);
    HeadInOwnClass(b, key);
    FilterNonEmpty(b, key, ka);
    var i :| 0 <= i < |b| && key(b[i]) == ka;
    assert kb <= ka by { if i > 0 { assert key(b[0]) <= key(b[i]); } }
    FilterNonEmpty(a, key, kb);
    var j :| 0 <= j < |a| && key(a[j]) == kb;
    assert ka <= kb by { if j > 0 { assert key(a[0]) <= key(a[j]); } }
    assert Filter(a, key, ka)[0] == a[0];
    assert Filter(b, key, kb)[0] == b[0];
  }

  /** Removing the same first element from both sides leaves the key classes equal. */
  lemma SameTailClasses<T>(a: seq<T>, b: seq<T>, key: T -> real)
    requires |a| > 0 && |b| > 0 && a[0] == b[0]
    requires forall k :: Filter(a, key, k) == Filter(b, key, k)
    ensures forall k :: Filter(a[1..], key, k) == Filter(b[1..], key, k)
  {
    forall k
      ensures Filter(a[1..], key, k) == Filter(b[1..], key, k)
    {
      var fa, fb := Filter(a, key, k), Filter(b, key, k);
      if key(a[0]) == k {
        assert fa[1..] == Filter(a[1..], key, k);
        assert fb[1..] == Filter(b[1..], key, k);
      } else {
        assert fa == Filter(a[1..], key, k);
        assert fb == Filter(b[1..], key, k);
      }
    }
  }

  /**
   * Uniqueness: two sequences sorted by the same key, whose key classes
   * hold the same elements in the same order, are equal. Together with
   * SortBy's contract and SortByStable this pins SortBy down as the stable
   * sort.
   */
  lemma {:induction false} StableSortUnique<T>(a: seq<T>, b: seq<T>, key: T -> real)
    requires SortedBy(a, key) && SortedBy(b, key)
    requires forall k :: Filter(a, key, k) == Filter(b, key, k)
    ensures a == b
    decreases |a|
  {
    if |a| == 0 {
      if |b| > 0 {
        HeadInOwnClass(b, key);
        assert false;
      }
    } else if |b| == 0 {
      HeadInOwnClass(a, key);
      assert false;
    } else {
      SameHead(a, b, key);
      SameTailClasses(a, b, key);
      StableSortUnique(a[1..], b[1..], key);
      assert a == [a[0]] + a[1..] && b == [b[0]] + b[1..];
    }
  }
}
