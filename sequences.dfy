/** The array operations the diary chains together: `filter`, a stable `sort` with a
    comparator, and `slice(0, n)`. A comparator is given as the relation "a may come
    before b"; every comparator used here is a total preorder. */
module Sequences {

  ghost predicate Total<T(!new)>(le: (T, T) -> bool)
  {
    forall a, b :: le(a, b) || le(b, a)
  }

  ghost predicate Transitive<T(!new)>(le: (T, T) -> bool)
  {
    forall a, b, c :: le(a, b) && le(b, c) ==> le(a, c)
  }

  ghost predicate TotalPreorder<T(!new)>(le: (T, T) -> bool)
  {
    Total(le) && Transitive(le)
  }

  ghost predicate SortedBy<T>(s: seq<T>, le: (T, T) -> bool)
  {
    forall i, j :: 0 <= i < j < |s| ==> le(s[i], s[j])
  }

  /** No element occurs twice. */
  predicate Distinct<T(==)>(s: seq<T>)
  {
    forall i, j :: 0 <= i < j < |s| ==> s[i] != s[j]
  }

  /** `array.filter(p)`. */
  function Filter<T>(s: seq<T>, p: T -> bool): (r: seq<T>)
    ensures |r| <= |s|
    ensures forall i :: 0 <= i < |r| ==> p(r[i]) && r[i] in s
    ensures forall i :: 0 <= i < |s| && p(s[i]) ==> s[i] in r
    ensures multiset(r) <= multiset(s)
  {
    if s == [] then []
    else
      assert s == [s[0]] + s[1..];
      if p(s[0]) then [s[0]] + Filter(s[1..], p) else Filter(s[1..], p)
  }

  /** Filtering works piece by piece, so the kept elements stay in their original order. */
  lemma {:induction false} FilterConcat<T>(a: seq<T>, b: seq<T>, p: T -> bool)
    ensures Filter(a + b, p) == Filter(a, p) + Filter(b, p)
  {
    if a == [] {
      assert a + b == b;
    } else {
      assert (a + b)[1..] == a[1..] + b;
      FilterConcat(a[1..], b, p);
    }
  }

  /** Filtering keeps a sequence whose every element passes. */
  lemma {:induction false} FilterAll<T>(s: seq<T>, p: T -> bool)
    requires forall i :: 0 <= i < |s| ==> p(s[i])
    ensures Filter(s, p) == s
  {
    if s != [] {
      FilterAll(s[1..], p);
    }
  }

  /** `array.slice(0, n)`. */
  function Take<T>(s: seq<T>, n: nat): (r: seq<T>)
    ensures |r| == if |s| < n then |s| else n
    ensures r == s[..|r|]
  {
    if |s| < n then s else s[..n]
  }

  /** Inserts `x` after the elements that must come before it and before all others. */
  function Insert<T>(x: T, s: seq<T>, le: (T, T) -> bool): (r: seq<T>)
    ensures |r| == |s| + 1
    ensures multiset(r) == multiset(s) + multiset{x}
  {
    if s == [] || le(x, s[0]) then [x] + s
    else
      assert s == [s[0]] + s[1..];
      [s[0]] + Insert(x, s[1..], le)
  }

  /** `array.sort(cmp)` for a stable sort: elements that compare equal keep their input order. */
  function Sort<T>(s: seq<T>, le: (T, T) -> bool): (r: seq<T>)
    ensures |r| == |s|
    ensures multiset(r) == multiset(s)
  {
    if s == [] then []
    else
      assert s == [s[0]] + s[1..];
      Insert(s[0], Sort(s[1..], le), le)
  }

  lemma {:induction false} InsertSorted<T(!new)>(x: T, s: seq<T>, le: (T, T) -> bool)
    requires TotalPreorder(le)
    requires SortedBy(s, le)
    ensures SortedBy(Insert(x, s, le), le)
  {
    if s != [] && !le(x, s[0]) {
      var rest := Insert(x, s[1..], le);
      InsertSorted(x, s[1..], le);
      forall k | 0 <= k < |rest|
        ensures le(s[0], rest[k])
      {
        assert rest[k] in multiset(rest);
        if rest[k] != x {
          assert rest[k] in multiset(s[1..]);
          var j :| 0 <= j < |s[1..]| && s[1..][j] == rest[k];
          assert s[1 + j] == rest[k];
        }
      }
    }
  }

  lemma {:induction false} SortSorted<T(!new)>(s: seq<T>, le: (T, T) -> bool)
    requires TotalPreorder(le)
    ensures SortedBy(Sort(s, le), le)
  {
    if s != [] {
      SortSorted(s[1..], le);
      InsertSorted(s[0], Sort(s[1..], le), le);
    }
  }

  /** After sorting, the first `n` elements may come before every element left out of them:
      what `sort(...).slice(0, n)` keeps are the leaders. */
  lemma PrefixLeads<T>(s: seq<T>, le: (T, T) -> bool, n: nat, x: T)
    requires SortedBy(s, le)
    requires x in s && x !in Take(s, n)
    ensures forall i :: 0 <= i < |Take(s, n)| ==> le(Take(s, n)[i], x)
  {
    var j :| 0 <= j < |s| && s[j] == x;
    var t := Take(s, n);
    assert j >= |t|;
  }
  /** An element that occurs at two positions occurs at least twice. */
  lemma CountTwo<T>(a: seq<T>, i: nat, j: nat)
    requires i < j < |a| && a[i] == a[j]
    ensures multiset(a)[a[i]] >= 2
  {
    assert a == a[..j] + a[j..];
    assert a[..j][i] == a[i];
    assert a[j..][0] == a[j];
    assert multiset(a) == multiset(a[..j]) + multiset(a[j..]);
  }

  /** In a sequence whose elements have pairwise different keys, each element occurs once. */
  lemma CountOne<T, K>(b: seq<T>, p: nat, key: T -> K)
    requires p < |b|
    requires forall i, j :: 0 <= i < j < |b| ==> key(b[i]) != key(b[j])
    ensures multiset(b)[b[p]] == 1
  {
    assert b == b[..p] + [b[p]] + b[p + 1..];
    assert b[p] !in b[..p] by {
      forall i | 0 <= i < p ensures b[..p][i] != b[p] {
        assert key(b[i]) != key(b[p]);
      }
    }
    assert b[p] !in b[p + 1..] by {
      forall i | p + 1 <= i < |b| ensures b[i] != b[p] {
        assert key(b[p]) != key(b[i]);
      }
    }
    assert multiset(b) == multiset(b[..p]) + multiset([b[p]]) + multiset(b[p + 1..]);
  }

  /** Keeping, dropping and reordering elements keeps their keys pairwise different. */
  lemma DistinctBySub<T, K>(a: seq<T>, b: seq<T>, key: T -> K)
    requires multiset(a) <= multiset(b)
    requires forall i, j :: 0 <= i < j < |b| ==> key(b[i]) != key(b[j])
    ensures forall i, j :: 0 <= i < j < |a| ==> key(a[i]) != key(a[j])
  {
    forall i, j | 0 <= i < j < |a|
      ensures key(a[i]) != key(a[j])
    {
      assert a[i] in multiset(b) && a[j] in multiset(b);
      var p :| 0 <= p < |b| && b[p] == a[i];
      var q :| 0 <= q < |b| && b[q] == a[j];
      if p == q {
        CountTwo(a, i, j);
        CountOne(b, p, key);
        assert false;
      }
    }
  }

  /** `sort(cmp).slice(0, n)` keeps sorted elements of `s`; when it leaves an element of `s`
      out, it keeps `n` elements, each of which may come before the one left out. */
  lemma SortTake<T(!new)>(s: seq<T>, le: (T, T) -> bool, n: nat)
    requires TotalPreorder(le)
    ensures var t := Take(Sort(s, le), n);
      && SortedBy(t, le)
      && multiset(t) <= multiset(s)
      && forall x :: x in s && x !in t ==> |t| == n && forall i :: 0 <= i < |t| ==> le(t[i], x)
  {
    var r := Sort(s, le);
    var t := Take(r, n);
    SortSorted(s, le);
    assert r == t + r[|t|..];
    assert multiset(r) == multiset(t) + multiset(r[|t|..]);
    forall x | x in s && x !in t
      ensures |t| == n && forall i :: 0 <= i < |t| ==> le(t[i], x)
    {
      assert x in multiset(r);
      PrefixLeads(r, le, n, x);
    }
  }

  /** What `filter(p).sort(le)` keeps passes `p` and has every property all of `s` has. */
  lemma SortFilterKeeps<T>(s: seq<T>, p: T -> bool, le: (T, T) -> bool, inv: T -> bool)
    requires forall i :: 0 <= i < |s| ==> inv(s[i])
    ensures var r := Sort(Filter(s, p), le);
      forall i :: 0 <= i < |r| ==> p(r[i]) && inv(r[i])
  {
    var kept := Filter(s, p);
    var r := Sort(kept, le);
    forall i | 0 <= i < |r|
      ensures p(r[i]) && inv(r[i])
    {
      assert r[i] in multiset(kept);
      var j :| 0 <= j < |kept| && kept[j] == r[i];
      assert kept[j] in s;
    }
  }

  /** `filter(p).sort(le).slice(0, n)`: at most `n` sorted elements of `s` that pass `p`; one
      that passes is left out only when `n` others that are not after it were kept. */
  lemma SortFilterTake<T(!new)>(s: seq<T>, p: T -> bool, le: (T, T) -> bool, n: nat)
    requires TotalPreorder(le)
    ensures var t := Take(Sort(Filter(s, p), le), n);
      && |t| <= n
      && multiset(t) <= multiset(s)
      && (forall i :: 0 <= i < |t| ==> p(t[i]))
      && SortedBy(t, le)
      && forall x :: x in s && p(x) && x !in t ==> |t| == n && forall i :: 0 <= i < |t| ==> le(t[i], x)
  {
    var kept := Filter(s, p);
    var t := Take(Sort(kept, le), n);
    SortTake(kept, le, n);
    forall i | 0 <= i < |t|
      ensures p(t[i])
    {
      assert t[i] in multiset(kept);
    }
    forall x | x in s && p(x) && x !in t
      ensures |t| == n && forall i :: 0 <= i < |t| ==> le(t[i], x)
    {
      assert x in kept;
    }
  }

  /** An element of `s` that passes `p` is among what `filter(p).sort(le)` returns. */
  lemma SortFilterHas<T>(s: seq<T>, p: T -> bool, le: (T, T) -> bool, x: T)
    requires x in s && p(x)
    ensures x in Sort(Filter(s, p), le)
  {
    var kept := Filter(s, p);
    assert x in kept;
    assert x in multiset(Sort(kept, le));
  }

  /** One step of a filter. */
  lemma FilterCons<T>(x: T, s: seq<T>, p: T -> bool)
    ensures Filter([x] + s, p) == if p(x) then [x] + Filter(s, p) else Filter(s, p)
  {
    assert ([x] + s)[0] == x && ([x] + s)[1..] == s;
  }

  /** A filter keeps every element exactly when every element passes. */
  lemma FilterKeepsAll<T>(s: seq<T>, p: T -> bool)
    ensures |Filter(s, p)| == |s| <==> forall i :: 0 <= i < |s| ==> p(s[i])
  {
    if forall i :: 0 <= i < |s| ==> p(s[i]) {
      FilterAll(s, p);
    } else {
      var i :| 0 <= i < |s| && !p(s[i]);
      FilterDrops(s, p, i);
    }
  }

  /** An element that fails makes the filter shorter. */
  lemma {:induction false} FilterDrops<T>(s: seq<T>, p: T -> bool, i: nat)
    requires i < |s| && !p(s[i])
    ensures |Filter(s, p)| < |s|
    decreases i
  {
    var rest := s[1..];
    assert s == [s[0]] + rest;
    FilterCons(s[0], rest, p);
    if i > 0 {
      assert rest[i - 1] == s[i];
      FilterDrops(rest, p, i - 1);
    }
  }
}
