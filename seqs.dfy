/** The two array operations every page leans on: `Array.prototype.filter`, and
    `Array.prototype.sort` with a numeric comparator, which is a stable sort. */
module SeqUtil {

  /** Keeps the elements satisfying `p`, in their original order. */
  function Filter<T(!new)>(s: seq<T>, p: T -> bool): (r: seq<T>)
    ensures |r| <= |s|
    decreases |s|
  {
    if s == [] then [] else Filter(s[..|s| - 1], p) + (if p(s[|s| - 1]) then [s[|s| - 1]] else [])
  }

  /** What the filter keeps is exactly the elements of `s` that satisfy `p`. */
  lemma {:induction false} FilterIn<T(!new)>(s: seq<T>, p: T -> bool)
    ensures forall x :: x in Filter(s, p) <==> x in s && p(x)
    decreases |s|
  {
    if s != [] {
      FilterIn(s[..|s| - 1], p);
      assert s == s[..|s| - 1] + [s[|s| - 1]];
    }
  }

  lemma {:induction false} FilterAppend<T(!new)>(a: seq<T>, b: seq<T>, p: T -> bool)
    ensures Filter(a + b, p) == Filter(a, p) + Filter(b, p)
    decreases |b|
  {
    if b == [] {
      assert a + b == a;
    } else {
      var n := |b| - 1;
      assert (a + b)[..|a + b| - 1] == a + b[..n];
      FilterAppend(a, b[..n], p);
    }
  }

  lemma {:induction false} FilterCons<T(!new)>(x: T, t: seq<T>, p: T -> bool)
    ensures Filter([x] + t, p) == (if p(x) then [x] else []) + Filter(t, p)
  {
    FilterAppend([x], t, p);
    assert [x][..0] == [];
    assert Filter([x], p) == Filter([], p) + (if p(x) then [x] else []);
  }

  /** Two predicates that agree on every element select the same subsequence. */
  lemma {:induction false} FilterExt<T(!new)>(s: seq<T>, p: T -> bool, q: T -> bool)
    requires forall x :: x in s ==> p(x) == q(x)
    ensures Filter(s, p) == Filter(s, q)
    decreases |s|
  {
    if s != [] {
      FilterExt(s[..|s| - 1], p, q);
    }
  }

  /** A filter that keeps everything is the identity. */
  lemma {:induction false} FilterKeepsAll<T(!new)>(s: seq<T>, p: T -> bool)
    requires forall x :: x in s ==> p(x)
    ensures Filter(s, p) == s
    decreases |s|
  {
    if s != [] {
      FilterKeepsAll(s[..|s| - 1], p);
      assert s == s[..|s| - 1] + [s[|s| - 1]];
    }
  }

  /** A filter that keeps nothing is empty. */
  lemma {:induction false} FilterNone<T(!new)>(s: seq<T>, p: T -> bool)
    requires forall x :: x in s ==> !p(x)
    ensures Filter(s, p) == []
    decreases |s|
  {
    if s != [] {
      FilterNone(s[..|s| - 1], p);
      assert s[|s| - 1] in s;
    }
  }

  /** Filtering by `p` and by its negation splits the sequence. */
  lemma {:induction false} FilterSplit<T(!new)>(s: seq<T>, p: T -> bool, q: T -> bool)
    requires forall x :: q(x) == !p(x)
    ensures |Filter(s, p)| + |Filter(s, q)| == |s|
    decreases |s|
  {
    if s != [] {
      FilterSplit(s[..|s| - 1], p, q);
    }
  }

  /** Filtering keeps the relative order of what it keeps. */
  lemma {:induction false} FilterOfFilter<T(!new)>(s: seq<T>, p: T -> bool, q: T -> bool)
    ensures Filter(Filter(s, p), q) == Filter(s, x => p(x) && q(x))
    decreases |s|
  {
    if s != [] {
      var n := |s| - 1;
      FilterOfFilter(s[..n], p, q);
      FilterAppend(Filter(s[..n], p), if p(s[n]) then [s[n]] else [], q);
    }
  }

  /** Filtering twice is filtering once by any predicate that is the conjunction on `s`. */
  lemma {:induction false} FilterTwice<T(!new)>(s: seq<T>, p: T -> bool, q: T -> bool, both: T -> bool)
    requires forall x :: x in s ==> both(x) == (p(x) && q(x))
    ensures Filter(Filter(s, p), q) == Filter(s, both)
    decreases |s|
  {
    if s != [] {
      var n := |s| - 1;
      FilterTwice(s[..n], p, q, both);
      FilterAppend(Filter(s[..n], p), if p(s[n]) then [s[n]] else [], q);
      if p(s[n]) {
        assert [s[n]][..0] == [];
      }
    }
  }

  /** The predicate "has key k", as a value, so that every use names the same function. */
  function KeyIs<T(!new)>(key: T -> int, k: int): T -> bool {
    y => key(y) == k
  }

  ghost predicate SortedBy<T(!new)>(s: seq<T>, key: T -> int) {
    forall i, j :: 0 <= i < j < |s| ==> key(s[i]) <= key(s[j])
  }

  /** Puts `x` in front of the first element whose key is not smaller. */
  function Insert<T(!new)>(x: T, t: seq<T>, key: T -> int): (r: seq<T>)
    ensures multiset(r) == multiset(t) + multiset{x}
    ensures SortedBy(t, key) ==> SortedBy(r, key)
  {
    if t == [] then [x]
    else if key(x) <= key(t[0]) then [x] + t
    else
      var rest := Insert(x, t[1..], key);
      assert t == [t[0]] + t[1..];
      assert SortedBy(t, key) ==> forall j :: 0 <= j < |rest| ==> key(t[0]) <= key(rest[j]) by {
        if SortedBy(t, key) {
          forall j | 0 <= j < |rest| ensures key(t[0]) <= key(rest[j]) {
            var y := rest[j];
            assert y in multiset(rest);
            if y != x {
              assert y in multiset(t[1..]);
              var m :| 0 <= m < |t[1..]| && t[1..][m] == y;
              assert t[m + 1] == y;
            }
          }
        }
      }
      [t[0]] + rest
  }

  /** A stable sort, ascending by `key`: the order `sort((a, b) => key(a) - key(b))` leaves. */
  function SortBy<T(!new)>(s: seq<T>, key: T -> int): (r: seq<T>)
    ensures multiset(r) == multiset(s)
    ensures SortedBy(r, key)
  {
    if s == [] then []
    else
      assert s == [s[0]] + s[1..];
      Insert(s[0], SortBy(s[1..], key), key)
  }

  lemma {:induction false} InsertStable<T(!new)>(x: T, t: seq<T>, key: T -> int, k: int)
    requires SortedBy(t, key)
    ensures Filter(Insert(x, t, key), KeyIs(key, k)) == (if key(x) == k then [x] else []) + Filter(t, KeyIs(key, k))
    decreases |t|
  {
    var p := KeyIs(key, k);
    assert p(x) == (key(x) == k);
    if t == [] {
      FilterCons(x, [], p);
      assert [x] + [] == [x];
    } else if key(x) <= key(t[0]) {
      FilterCons(x, t, p);
    } else {
      InsertStable(x, t[1..], key, k);
      InsertStablePast(x, t, key, k);
    }
  }

  /** The step of InsertStable where `x` travels past the head of `t`. */
  lemma {:induction false} InsertStablePast<T(!new)>(x: T, t: seq<T>, key: T -> int, k: int)
    requires t != [] && key(t[0]) < key(x)
    requires Filter(Insert(x, t[1..], key), KeyIs(key, k)) == (if key(x) == k then [x] else []) + Filter(t[1..], KeyIs(key, k))
    ensures Filter(Insert(x, t, key), KeyIs(key, k)) == (if key(x) == k then [x] else []) + Filter(t, KeyIs(key, k))
  {
    var p := KeyIs(key, k);
    assert t == [t[0]] + t[1..];
    assert Insert(x, t, key) == [t[0]] + Insert(x, t[1..], key);
    assert p(x) == (key(x) == k) && p(t[0]) == (key(t[0]) == k);
    FilterPast(t[0], x, Insert(x, t[1..], key), t[1..], p);
  }

  /** If `x` is the only extra element `rest` keeps over `tail`, the same holds with `a` in front of both,
      provided `a` and `x` are not both kept. */
  lemma {:induction false} FilterPast<T(!new)>(a: T, x: T, rest: seq<T>, tail: seq<T>, p: T -> bool)
    requires !(p(a) && p(x))
    requires Filter(rest, p) == (if p(x) then [x] else []) + Filter(tail, p)
    ensures Filter([a] + rest, p) == (if p(x) then [x] else []) + Filter([a] + tail, p)
  {
    FilterCons(a, rest, p);
    FilterCons(a, tail, p);
    if p(x) {
      assert Filter([a] + rest, p) == [] + ([x] + Filter(tail, p));
    } else {
      assert Filter([a] + rest, p) == (if p(a) then [a] else []) + ([] + Filter(tail, p));
    }
  }

  /** Stability: among elements with equal keys, the sorted sequence keeps the input order. */
  lemma {:induction false} SortByStable<T(!new)>(s: seq<T>, key: T -> int, k: int)
    ensures Filter(SortBy(s, key), KeyIs(key, k)) == Filter(s, KeyIs(key, k))
    decreases |s|
  {
    if s != [] {
      assert s == [s[0]] + s[1..];
      SortByStable(s[1..], key, k);
      InsertStable(s[0], SortBy(s[1..], key), key, k);
      FilterCons(s[0], s[1..], KeyIs(key, k));
    }
  }

  /** A sequence already in key order is left as it is. */
  lemma {:induction false} SortBySorted<T(!new)>(s: seq<T>, key: T -> int)
    requires SortedBy(s, key)
    ensures SortBy(s, key) == s
    decreases |s|
  {
    if s != [] {
      SortBySorted(s[1..], key);
      assert s == [s[0]] + s[1..];
    }
  }

  /** Two sequences in key order, every key of the first at most every key of the second, are in
      key order together. */
  lemma SortedAppend<T(!new)>(a: seq<T>, b: seq<T>, key: T -> int, m: int)
    requires SortedBy(a, key) && SortedBy(b, key)
    requires forall i :: 0 <= i < |a| ==> key(a[i]) <= m
    requires forall j :: 0 <= j < |b| ==> m <= key(b[j])
    ensures SortedBy(a + b, key)
  {
    var c := a + b;
    forall i, j | 0 <= i < j < |c| ensures key(c[i]) <= key(c[j]) {
      if j < |a| {
        assert c[i] == a[i] && c[j] == a[j];
      } else if i >= |a| {
        assert c[i] == b[i - |a|] && c[j] == b[j - |a|];
      } else {
        assert c[i] == a[i] && c[j] == b[j - |a|];
      }
    }
  }
}
