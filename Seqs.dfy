/**
 * The collection operations of Swift's standard library that the app's
 * computed properties are built from: `filter` and `sorted(by:)`.
 */
module Seqs {

  /** `r` is `s` with some elements dropped and the rest kept in their order. */
  predicate IsSubsequence<T(==)>(r: seq<T>, s: seq<T>)
    decreases |s|
  {
    r == [] ||
    (s != [] && ((r[0] == s[0] && IsSubsequence(r[1..], s[1..])) || IsSubsequence(r, s[1..])))
  }

  lemma {:induction false} SubsequenceReflexive<T>(s: seq<T>)
    ensures IsSubsequence(s, s)
  {
    if s != [] {
      SubsequenceReflexive(s[1..]);
    }
  }

  /** `Array.filter`: the elements of `s` that satisfy `p`, in their order. */
  function Filter<T(!new)>(p: T -> bool, s: seq<T>): (r: seq<T>)
    ensures |r| <= |s|
  {
    if s == [] then []
    else (if p(s[0]) then [s[0]] else []) + Filter(p, s[1..])
  }

  /** `Filter` keeps every occurrence of an element satisfying `p` and no other element. */
  lemma {:induction false} FilterCounts<T(!new)>(p: T -> bool, s: seq<T>)
    ensures forall x :: multiset(Filter(p, s))[x] == if p(x) then multiset(s)[x] else 0
  {
    if s != [] {
      FilterCounts(p, s[1..]);
      FilterCons(p, s);
      assert s == [s[0]] + s[1..];
      assert multiset(s) == multiset{s[0]} + multiset(s[1..]);
    }
  }

  /** The elements of `Filter(p, s)` are the elements of `s` satisfying `p`. */
  lemma FilterMembers<T(!new)>(p: T -> bool, s: seq<T>)
    ensures forall x :: x in Filter(p, s) <==> x in s && p(x)
  {
    var r := Filter(p, s);
    FilterCounts(p, s);
    forall x ensures x in r <==> x in s && p(x) {
      assert x in r <==> multiset(r)[x] > 0;
      assert x in s <==> multiset(s)[x] > 0;
    }
  }

  lemma {:induction false} FilterIsSubsequence<T(!new)>(p: T -> bool, s: seq<T>)
    ensures IsSubsequence(Filter(p, s), s)
  {
    if s != [] {
      FilterIsSubsequence(p, s[1..]);
      var rest := Filter(p, s[1..]);
      if p(s[0]) {
        assert Filter(p, s) == [s[0]] + rest;
        assert ([s[0]] + rest)[1..] == rest;
      } else {
        assert Filter(p, s) == rest;
      }
    }
  }

  /** One step of `Filter`: the head, when it satisfies `p`, then the filtered tail. */
  lemma FilterCons<T(!new)>(p: T -> bool, s: seq<T>)
    requires s != []
    ensures Filter(p, s) == (if p(s[0]) then [s[0]] else []) + Filter(p, s[1..])
  {
  }

  /**
   * `Filter` keeps order: if every element in front of position `m` of the
   * filtered sequence has property `q`, then `Filter(p, s)[m]` sits at some
   * position of `s` in front of which every element satisfying `p` has `q`.
   */
  lemma {:induction false} FilterFindsInOrder<T(!new)>(p: T -> bool, q: T -> bool, s: seq<T>, m: nat)
    requires m < |Filter(p, s)|
    requires forall j :: 0 <= j < m ==> q(Filter(p, s)[j])
    ensures exists i :: 0 <= i < |s| && s[i] == Filter(p, s)[m] &&
                        forall j :: 0 <= j < i && p(s[j]) ==> q(s[j])
  {
    FilterCons(p, s);
    var rest := Filter(p, s[1..]);
    if p(s[0]) && m == 0 {
      assert s[0] == Filter(p, s)[0];
    } else {
      var m' := if p(s[0]) then m - 1 else m;
      assert forall j :: 0 <= j < m' ==> rest[j] == Filter(p, s)[j + (m - m')];
      FilterFindsInOrder(p, q, s[1..], m');
      var i' :| 0 <= i' < |s[1..]| && s[1..][i'] == rest[m'] &&
                forall j :: 0 <= j < i' && p(s[1..][j]) ==> q(s[1..][j]);
      assert s[i' + 1] == Filter(p, s)[m];
      assert forall j :: 0 < j < i' + 1 && p(s[j]) ==> q(s[j]) by {
        forall j | 0 < j < i' + 1 && p(s[j]) ensures q(s[j]) {
          assert s[j] == s[1..][j - 1];
        }
      }
      if p(s[0]) {
        assert s[0] == Filter(p, s)[0];
      }
    }
  }

  /** Filtering with a predicate every element satisfies gives back the sequence. */
  lemma {:induction false} FilterKeepsAll<T(!new)>(p: T -> bool, s: seq<T>)
    ensures (forall x :: x in s ==> p(x)) ==> Filter(p, s) == s
  {
    if s != [] && forall x :: x in s ==> p(x) {
      assert forall x :: x in s[1..] ==> x in s;
      FilterKeepsAll(p, s[1..]);
      FilterCons(p, s);
      assert [s[0]] + s[1..] == s;
    }
  }

  /** Filtering distributes over concatenation. */
  lemma {:induction false} FilterAppend<T(!new)>(p: T -> bool, s: seq<T>, t: seq<T>)
    ensures Filter(p, s + t) == Filter(p, s) + Filter(p, t)
  {
    if s == [] {
      assert s + t == t;
    } else {
      var u := s + t;
      assert u[0] == s[0];
      assert u[1..] == s[1..] + t;
      FilterAppend(p, s[1..], t);
      FilterCons(p, u);
      FilterCons(p, s);
      var head := if p(s[0]) then [s[0]] else [];
      assert head + (Filter(p, s[1..]) + Filter(p, t)) == (head + Filter(p, s[1..])) + Filter(p, t);
    }
  }

  /** Filtering a one-element sequence keeps the element exactly when it satisfies `p`. */
  lemma FilterSingleton<T(!new)>(p: T -> bool, x: T)
    ensures Filter(p, [x]) == if p(x) then [x] else []
  {
    assert [x][1..] == [];
  }

  /** Filtering a sequence extended by one element. */
  lemma FilterSnoc<T(!new)>(p: T -> bool, s: seq<T>, x: T)
    ensures Filter(p, s + [x]) == Filter(p, s) + (if p(x) then [x] else [])
  {
    FilterAppend(p, s, [x]);
    FilterSingleton(p, x);
  }

  lemma {:induction false} SubsequenceTransitive<T>(a: seq<T>, b: seq<T>, c: seq<T>)
    requires IsSubsequence(a, b) && IsSubsequence(b, c)
    ensures IsSubsequence(a, c)
    decreases |c|
  {
    if a != [] {
      if IsSubsequence(b, c[1..]) {
        SubsequenceTransitive(a, b, c[1..]);
      } else if a[0] == b[0] && IsSubsequence(a[1..], b[1..]) {
        SubsequenceTransitive(a[1..], b[1..], c[1..]);
      } else {
        SubsequenceTransitive(a, b[1..], c[1..]);
      }
    }
  }

  /** Ascending order of `key` (a non-strict order: ties may come in any order). */
  predicate SortedBy<T>(key: T -> real, s: seq<T>)
  {
    forall i, j :: 0 <= i < j < |s| ==> key(s[i]) <= key(s[j])
  }

  /** Puts `x` into the sorted `s` in front of the first element whose key is not smaller (so before equal keys). */
  function Insert<T>(key: T -> real, x: T, s: seq<T>): (r: seq<T>)
    requires SortedBy(key, s)
    ensures SortedBy(key, r)
    ensures multiset(r) == multiset(s) + multiset{x}
    ensures |r| == |s| + 1
  {
    if s == [] || key(x) <= key(s[0]) then
      SortedCons(key, x, s);
      [x] + s
    else
      var tail := Insert(key, x, s[1..]);
      InsertedTailBound(key, x, s, tail);
      SortedCons(key, s[0], tail);
      assert s == [s[0]] + s[1..];
      [s[0]] + tail
  }

  /** Every element of `tail`, which holds `x` and `s[1..]`, has a key no smaller than that of `s[0]`. */
  lemma InsertedTailBound<T>(key: T -> real, x: T, s: seq<T>, tail: seq<T>)
    requires SortedBy(key, s) && s != [] && key(s[0]) < key(x)
    requires multiset(tail) == multiset(s[1..]) + multiset{x}
    ensures forall i :: 0 <= i < |tail| ==> key(s[0]) <= key(tail[i])
  {
    forall i | 0 <= i < |tail| ensures key(s[0]) <= key(tail[i]) {
      assert tail[i] in multiset(tail);
      if tail[i] != x {
        assert tail[i] in s[1..];
        var k :| 1 <= k < |s| && s[k] == tail[i];
      }
    }
  }

  lemma SortedCons<T>(key: T -> real, h: T, t: seq<T>)
    requires SortedBy(key, t)
    requires forall i :: 0 <= i < |t| ==> key(h) <= key(t[i])
    ensures SortedBy(key, [h] + t)
  {
    forall i, j | 0 <= i < j < |t| + 1 ensures key(([h] + t)[i]) <= key(([h] + t)[j]) {
      if i > 0 {
        assert ([h] + t)[i] == t[i - 1];
      }
    }
  }

  /** Among elements with equal keys, `rank` increases along `s`. */
  predicate TiesByRank<T>(key: T -> real, rank: T -> int, s: seq<T>)
  {
    forall i, j :: 0 <= i < j < |s| && key(s[i]) == key(s[j]) ==> rank(s[i]) < rank(s[j])
  }

  /** `Insert` puts `x` in front of every element with an equal key. */
  lemma {:induction false} InsertKeepsTiesByRank<T>(key: T -> real, rank: T -> int, x: T, s: seq<T>)
    requires SortedBy(key, s) && TiesByRank(key, rank, s)
    requires forall y :: y in s ==> rank(x) < rank(y)
    ensures TiesByRank(key, rank, Insert(key, x, s))
  {
    if s == [] || key(x) <= key(s[0]) {
      TiesByRankCons(key, rank, x, s);
    } else {
      var tail := Insert(key, x, s[1..]);
      assert SortedBy(key, s[1..]) && TiesByRank(key, rank, s[1..]);
      assert forall y :: y in s[1..] ==> y in s;
      InsertKeepsTiesByRank(key, rank, x, s[1..]);
      forall y | y in tail && key(y) == key(s[0]) ensures rank(s[0]) < rank(y) {
        assert y in multiset(tail);
        assert y in s[1..];
        var k :| 1 <= k < |s| && s[k] == y;
      }
      TiesByRankCons(key, rank, s[0], tail);
    }
  }

  lemma TiesByRankCons<T>(key: T -> real, rank: T -> int, h: T, t: seq<T>)
    requires TiesByRank(key, rank, t)
    requires forall y :: y in t && key(y) == key(h) ==> rank(h) < rank(y)
    ensures TiesByRank(key, rank, [h] + t)
  {
    var r := [h] + t;
    forall i, j | 0 <= i < j < |r| && key(r[i]) == key(r[j]) ensures rank(r[i]) < rank(r[j]) {
      assert r[j] == t[j - 1];
      if i > 0 {
        assert r[i] == t[i - 1];
      }
    }
  }

  /**
   * `SortBy` is stable: when `rank` increases along the input, elements with
   * equal keys come out in the order they went in.
   */
  lemma {:induction false} SortByIsStable<T>(key: T -> real, rank: T -> int, s: seq<T>)
    requires forall i, j :: 0 <= i < j < |s| ==> rank(s[i]) < rank(s[j])
    ensures TiesByRank(key, rank, SortBy(key, s))
  {
    if s != [] {
      var sorted := SortBy(key, s[1..]);
      SortByIsStable(key, rank, s[1..]);
      forall y | y in sorted ensures rank(s[0]) < rank(y) {
        assert y in multiset(sorted);
        assert y in s[1..];
        var k :| 1 <= k < |s| && s[k] == y;
      }
      InsertKeepsTiesByRank(key, rank, s[0], sorted);
    }
  }

  /** `sorted(by:)` with an ordering that compares `key`: a sorted permutation of `s`. */
  function SortBy<T>(key: T -> real, s: seq<T>): (r: seq<T>)
    ensures SortedBy(key, r)
    ensures multiset(r) == multiset(s)
    ensures |r| == |s|
  {
    if s == [] then []
    else
      assert s == [s[0]] + s[1..];
      Insert(key, s[0], SortBy(key, s[1..]))
  }
}
