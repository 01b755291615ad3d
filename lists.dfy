/** The array operations the portal is built from: `findIndex`/`find`, `filter`, an id-keyed
    `map`, and the stable comparison sort used for newest-first listings. */
module Lists {
  import opened Domain

  /** `s.findIndex(p)`, with -1 as None. */
  function FirstIndex<T>(s: seq<T>, p: T -> bool): (r: Option<nat>)
    ensures r.Some? ==> r.value < |s| && p(s[r.value])
    ensures r.Some? ==> forall k :: 0 <= k < r.value ==> !p(s[k])
    ensures r.None? <==> forall k :: 0 <= k < |s| ==> !p(s[k])
  {
    if |s| == 0 then None
    else if p(s[0]) then Some(0)
    else match FirstIndex(s[1..], p)
      case None => None
      case Some(i) => Some(i + 1)
  }

  /** `s.filter(p)`. */
  function Filter<T>(s: seq<T>, p: T -> bool): (r: seq<T>)
    ensures |r| <= |s|
    ensures forall i :: 0 <= i < |r| ==> p(r[i])
  {
    if s == [] then [] else (if p(s[0]) then [s[0]] else []) + Filter(s[1..], p)
  }

  /** Filtering keeps exactly the elements that pass: every survivor comes from `s`, and every
      element of `s` that passes survives. */
  lemma FilterMembers<T>(s: seq<T>, p: T -> bool)
    ensures forall x :: x in Filter(s, p) <==> x in s && p(x)
  {
    forall x ensures x in Filter(s, p) <==> x in s && p(x) {
      FilterMultiset(s, p, x);
    }
  }

  /** `a` can be obtained from `b` by deleting elements: the same elements in the same order. */
  predicate IsSubsequence<T(==)>(a: seq<T>, b: seq<T>)
    decreases |b|
  {
    a == [] || (b != [] && ((a[0] == b[0] && IsSubsequence(a[1..], b[1..])) || IsSubsequence(a, b[1..])))
  }

  /** Filtering keeps the survivors in their original order. */
  lemma {:induction false} FilterIsSubsequence<T>(s: seq<T>, p: T -> bool)
    ensures IsSubsequence(Filter(s, p), s)
  {
    if s != [] {
      FilterIsSubsequence(s[1..], p);
      var r := Filter(s, p);
      if p(s[0]) {
        assert r[0] == s[0] && r[1..] == Filter(s[1..], p);
      } else {
        assert r == Filter(s[1..], p);
        if r != [] { SubsequenceOfTail(r, s); }
      }
    }
  }

  lemma {:induction false} SubsequenceOfItself<T>(s: seq<T>)
    ensures IsSubsequence(s, s)
  {
    if s != [] {
      SubsequenceOfItself(s[1..]);
    }
  }

  lemma SubsequenceOfTail<T>(a: seq<T>, b: seq<T>)
    requires b != [] && IsSubsequence(a, b[1..])
    ensures IsSubsequence(a, b)
  {
  }

  /** Filtering keeps every element that passes, as often as it occurs, and drops every other. */
  lemma {:induction false} FilterMultiset<T>(s: seq<T>, p: T -> bool, x: T)
    ensures multiset(Filter(s, p))[x] == if p(x) then multiset(s)[x] else 0
  {
    if s != [] {
      FilterMultiset(s[1..], p, x);
      assert s == [s[0]] + s[1..];
    }
  }

  /** `FilterMultiset` for every element at once. */
  lemma FilterCounts<T>(s: seq<T>, p: T -> bool)
    ensures forall x :: multiset(Filter(s, p))[x] == if p(x) then multiset(s)[x] else 0
  {
    forall x
      ensures multiset(Filter(s, p))[x] == if p(x) then multiset(s)[x] else 0
    {
      FilterMultiset(s, p, x);
    }
  }

  /** Filtering a list that starts with `x` yields `x` first exactly when it passes. */
  lemma FilterCons<T>(x: T, s: seq<T>, p: T -> bool)
    ensures Filter([x] + s, p) == if p(x) then [x] + Filter(s, p) else Filter(s, p)
  {
    assert ([x] + s)[1..] == s;
  }

  /** Filtering distributes over concatenation. */
  lemma {:induction false} FilterAppend<T>(a: seq<T>, b: seq<T>, p: T -> bool)
    ensures Filter(a + b, p) == Filter(a, p) + Filter(b, p)
  {
    if a != [] {
      FilterAppend(a[1..], b, p);
      assert (a + b)[0] == a[0] && (a + b)[1..] == a[1..] + b;
    } else {
      assert a + b == b;
    }
  }

  /** A filter that every element passes changes nothing. */
  lemma {:induction false} FilterKeepsAll<T>(s: seq<T>, p: T -> bool)
    requires forall i :: 0 <= i < |s| ==> p(s[i])
    ensures Filter(s, p) == s
  {
    if s != [] {
      FilterKeepsAll(s[1..], p);
      assert s == [s[0]] + s[1..];
    }
  }

  /** Two filters that agree on every element of `s` select the same elements. */
  lemma {:induction false} FilterAgree<T>(s: seq<T>, p: T -> bool, q: T -> bool)
    requires forall i :: 0 <= i < |s| ==> p(s[i]) == q(s[i])
    ensures Filter(s, p) == Filter(s, q)
  {
    if s != [] {
      FilterAgree(s[1..], p, q);
    }
  }

  /** `s.map(x => p(x) ? f(x) : x)`: the update of every element that matches a key. */
  function MapWhere<T>(s: seq<T>, p: T -> bool, f: T -> T): (r: seq<T>)
    ensures |r| == |s|
    ensures forall i :: 0 <= i < |s| && p(s[i]) ==> r[i] == f(s[i])
    ensures forall i :: 0 <= i < |s| && !p(s[i]) ==> r[i] == s[i]
  {
    if s == [] then [] else [if p(s[0]) then f(s[0]) else s[0]] + MapWhere(s[1..], p, f)
  }

  /** Descending by `key`: what the comparator `(a, b) => key(b) - key(a)` sorts into. */
  ghost predicate SortedDesc<T>(s: seq<T>, key: T -> int) {
    forall i, j :: 0 <= i < j < |s| ==> key(s[i]) >= key(s[j])
  }

  /** Putting `y` in front of a descending list keeps it descending when `y` is not smaller
      than the old head. */
  lemma ConsSorted<T>(y: T, t: seq<T>, key: T -> int)
    requires SortedDesc(t, key) && (t == [] || key(y) >= key(t[0]))
    ensures SortedDesc([y] + t, key)
  {
    forall i, j | 0 <= i < j < |[y] + t| ensures key(([y] + t)[i]) >= key(([y] + t)[j]) {
      if i == 0 {
        assert key(t[0]) >= key(t[j - 1]) || j == 1;
      }
    }
  }

  /** Insert `x` before the first element whose key is not larger. The new head is `x` or the
      old head. */
  function InsertDesc<T>(x: T, s: seq<T>, key: T -> int): (r: seq<T>)
    ensures multiset(r) == multiset(s) + multiset{x}
    ensures |r| == |s| + 1 && (r[0] == x || (s != [] && r[0] == s[0]))
  {
    if s == [] || key(x) >= key(s[0]) then [x] + s
    else
      assert s == [s[0]] + s[1..];
      [s[0]] + InsertDesc(x, s[1..], key)
  }

  /** Inserting into a descending list keeps it descending. */
  lemma {:induction false} InsertDescSorted<T>(x: T, s: seq<T>, key: T -> int)
    requires SortedDesc(s, key)
    ensures SortedDesc(InsertDesc(x, s, key), key)
  {
    if s == [] || key(x) >= key(s[0]) {
      ConsSorted(x, s, key);
    } else {
      var t := InsertDesc(x, s[1..], key);
      InsertDescSorted(x, s[1..], key);
      assert |s| == 1 || key(s[0]) >= key(s[1]);
      ConsSorted(s[0], t, key);
    }
  }

  /** `s.sort((a, b) => key(b) - key(a))` as JavaScript does it: newest first, ties kept in
      their original order. It permutes `s`; `SortNewestFirstSorted` and `SortStable` say how. */
  function SortNewestFirst<T>(s: seq<T>, key: T -> int): (r: seq<T>)
    ensures multiset(r) == multiset(s)
  {
    if s == [] then []
    else
      assert s == [s[0]] + s[1..];
      InsertDesc(s[0], SortNewestFirst(s[1..], key), key)
  }

  /** The sort orders by descending key. */
  lemma {:induction false} SortNewestFirstSorted<T>(s: seq<T>, key: T -> int)
    ensures SortedDesc(SortNewestFirst(s, key), key)
  {
    if s != [] {
      SortNewestFirstSorted(s[1..], key);
      InsertDescSorted(s[0], SortNewestFirst(s[1..], key), key);
    }
  }

  function KeyIs<T>(key: T -> int, k: int): T -> bool {
    y => key(y) == k
  }

  lemma {:induction false} InsertDescStable<T>(x: T, s: seq<T>, key: T -> int, k: int)
    ensures Filter(InsertDesc(x, s, key), KeyIs(key, k))
         == (if key(x) == k then [x] else []) + Filter(s, KeyIs(key, k))
  {
    var p := KeyIs(key, k);
    if s == [] || key(x) >= key(s[0]) {
      assert InsertDesc(x, s, key) == [x] + s;
      FilterCons(x, s, p);
    } else {
      var t := InsertDesc(x, s[1..], key);
      assert InsertDesc(x, s, key) == [s[0]] + t;
      InsertDescStable(x, s[1..], key, k);
      FilterCons(s[0], t, p);
      assert s == [s[0]] + s[1..];
      FilterCons(s[0], s[1..], p);
      var head := if p(s[0]) then [s[0]] else [];
      var mid := if key(x) == k then [x] else [];
      assert Filter(t, p) == mid + Filter(s[1..], p);
      assert Filter([s[0]] + t, p) == head + (mid + Filter(s[1..], p));
      assert Filter(s, p) == head + Filter(s[1..], p);
      if key(x) == k {
        assert head == [];
        assert head + (mid + Filter(s[1..], p)) == mid + Filter(s, p);
      } else {
        assert mid == [];
        assert head + (mid + Filter(s[1..], p)) == Filter(s, p);
        assert [] + Filter(s, p) == Filter(s, p);
      }
    }
  }

  /** The sort is stable: among elements with equal keys the original order survives. */
  lemma {:induction false} SortStable<T>(s: seq<T>, key: T -> int, k: int)
    ensures Filter(SortNewestFirst(s, key), KeyIs(key, k)) == Filter(s, KeyIs(key, k))
  {
    if s != [] {
      var rest := SortNewestFirst(s[1..], key);
      assert SortNewestFirst(s, key) == InsertDesc(s[0], rest, key);
      SortStable(s[1..], key, k);
      InsertDescStable(s[0], rest, key, k);
      assert s == [s[0]] + s[1..];
      FilterCons(s[0], s[1..], KeyIs(key, k));
    }
  }
}
