/** Small vocabulary shared by every component: optional values, filtering and stable sorting. */
module Common {

  datatype Option<+T> = None | Some(value: T)

  datatype ChannelId = ChannelId(n: nat)

  datatype Address = Address(n: nat)

  function Min(a: int, b: int): int { if a <= b then a else b }

  function Max(a: int, b: int): int { if a <= b then b else a }

  /** The elements of `s` that satisfy `keep`, in their original order. */
  function Filter<T>(s: seq<T>, keep: T -> bool): (r: seq<T>)
    ensures |r| <= |s|
    ensures forall x :: x in r ==> x in s && keep(x)
    ensures forall x :: x in s && keep(x) ==> x in r
  {
    if s == [] then []
    else if keep(s[0]) then [s[0]] + Filter(s[1..], keep)
    else Filter(s[1..], keep)
  }

  lemma AppendAssociates<T>(a: seq<T>, b: seq<T>, c: seq<T>)
    ensures a + (b + c) == (a + b) + c
  {}

  lemma {:induction false} FilterAppend<T>(s: seq<T>, t: seq<T>, keep: T -> bool)
    ensures Filter(s + t, keep) == Filter(s, keep) + Filter(t, keep)
  {
    if s == [] {
      assert s + t == t;
    } else {
      var u, first := s + t, if keep(s[0]) then [s[0]] else [];
      calc {
        Filter(u, keep);
        (if keep(u[0]) then [u[0]] else []) + Filter(u[1..], keep);
        { assert u[0] == s[0] && u[1..] == s[1..] + t; }
        first + Filter(s[1..] + t, keep);
        { FilterAppend(s[1..], t, keep); }
        first + (Filter(s[1..], keep) + Filter(t, keep));
        { AppendAssociates(first, Filter(s[1..], keep), Filter(t, keep)); }
        Filter(s, keep) + Filter(t, keep);
      }
    }
  }

  lemma {:induction false} FilterAll<T>(s: seq<T>, keep: T -> bool)
    requires forall x :: x in s ==> keep(x)
    ensures Filter(s, keep) == s
  {
    if s != [] {
      FilterAll(s[1..], keep);
    }
  }

  /** Insertion before the first element whose key is not smaller. */
  function Insert<T>(x: T, s: seq<T>, key: T -> real): (r: seq<T>)
    ensures |r| == |s| + 1
    ensures multiset(r) == multiset(s) + multiset{x}
  {
    if s == [] || key(x) <= key(s[0]) then [x] + s
    else
      assert s == [s[0]] + s[1..];
      [s[0]] + Insert(x, s[1..], key)
  }

  /** A stable sort by ascending key, as `slice::sort_by` performs it. */
  function StableSort<T>(s: seq<T>, key: T -> real): (r: seq<T>)
    ensures |r| == |s|
    ensures multiset(r) == multiset(s)
  {
    if s == [] then []
    else
      assert s == [s[0]] + s[1..];
      Insert(s[0], StableSort(s[1..], key), key)
  }

  ghost predicate Sorted<T>(s: seq<T>, key: T -> real) {
    forall i, j :: 0 <= i < j < |s| ==> key(s[i]) <= key(s[j])
  }

  lemma SameElements<T>(s: seq<T>, t: seq<T>)
    requires multiset(s) == multiset(t)
    ensures forall x :: x in s <==> x in t
  {
    forall x ensures x in s <==> x in t {
      assert x in s <==> x in multiset(s);
      assert x in t <==> x in multiset(t);
    }
  }

  lemma {:induction false} InsertKeepsSorted<T>(x: T, s: seq<T>, key: T -> real)
    requires Sorted(s, key)
    ensures Sorted(Insert(x, s, key), key)
  {
    if s == [] || key(x) <= key(s[0]) {
    } else {
      var t := s[1..];
      InsertKeepsSorted(x, t, key);
      var r := Insert(x, t, key);
      forall j | 0 <= j < |r| ensures key(s[0]) <= key(r[j]) {
        assert r[j] in multiset(r);
        assert r[j] in multiset(t) + multiset{x};
        assert r[j] in t || r[j] == x;
      }
    }
  }

  lemma {:induction false} StableSortSorts<T>(s: seq<T>, key: T -> real)
    ensures Sorted(StableSort(s, key), key)
    ensures forall x :: x in StableSort(s, key) <==> x in s
  {
    if s != [] {
      StableSortSorts(s[1..], key);
      InsertKeepsSorted(s[0], StableSort(s[1..], key), key);
    }
    SameElements(StableSort(s, key), s);
  }

  lemma HeadIsLeast<T>(s: seq<T>, key: T -> real, x: T)
    requires Sorted(s, key) && x in s
    ensures key(s[0]) <= key(x)
  {}

  lemma TailSorted<T>(s: seq<T>, key: T -> real)
    requires Sorted(s, key) && s != []
    ensures Sorted(s[1..], key)
  {}

  lemma {:induction false} InsertFilter<T>(x: T, s: seq<T>, key: T -> real, keep: T -> bool)
    requires Sorted(s, key)
    ensures Filter(Insert(x, s, key), keep)
         == if keep(x) then Insert(x, Filter(s, keep), key) else Filter(s, keep)
  {
    hide Sorted;
    var f := Filter(s, keep);
    if s == [] || key(x) <= key(s[0]) {
      assert ([x] + s)[1..] == s;
      if f != [] {
        HeadIsLeast(s, key, f[0]);
      }
    } else {
      TailSorted(s, key);
      InsertFilter(x, s[1..], key, keep);
      var r := Insert(x, s[1..], key);
      assert ([s[0]] + r)[1..] == r;
      if keep(s[0]) {
        assert f[1..] == Filter(s[1..], keep);
      }
    }
  }

  /** Dropping elements before sorting or after sorting gives the same list: the sort is stable. */
  lemma {:induction false} SortFilter<T>(s: seq<T>, key: T -> real, keep: T -> bool)
    ensures StableSort(Filter(s, keep), key) == Filter(StableSort(s, key), keep)
  {
    if s != [] {
      var rest := StableSort(s[1..], key);
      SortFilter(s[1..], key, keep);
      StableSortSorts(s[1..], key);
      InsertFilter(s[0], rest, key, keep);
      if keep(s[0]) {
        var f := Filter(s, keep);
        assert f[0] == s[0] && f[1..] == Filter(s[1..], keep);
      }
    }
  }

  lemma SubsetCardinality<T>(a: set<T>, b: set<T>)
    requires a <= b
    ensures |a| <= |b|
  {
    assert b == a + (b - a);
  }
}
