/**
 * The array operations the TypeScript code uses on query results and lists:
 * `filter`, `map`, `slice(0, n)`, insertion-ordered de-duplication through a
 * `Set`, and the stable `sort` that both `Array.prototype.sort` and a Firestore
 * `orderBy` produce.
 */
module Seqs {

  // ---------------------------------------------------------------------------
  // filter / count

  /** `s.filter(p)` */
  function Filter<T(!new)>(s: seq<T>, p: T -> bool): (r: seq<T>)
    ensures |r| <= |s|
    ensures forall x :: x in r <==> x in s && p(x)
    decreases |s|
  {
    if s == [] then []
    else
      assert s == [s[0]] + s[1..];
      (if p(s[0]) then [s[0]] else []) + Filter(s[1..], p)
  }

  lemma FilterCons<T(!new)>(x: T, s: seq<T>, p: T -> bool)
    ensures Filter([x] + s, p) == (if p(x) then [x] else []) + Filter(s, p)
  {
    assert ([x] + s)[0] == x && ([x] + s)[1..] == s;
  }

  /** Two sequences with the same multiset have the same members. */
  lemma SameMembers<T>(x: T, a: seq<T>, b: seq<T>)
    requires multiset(a) == multiset(b)
    ensures x in a <==> x in b
  {
    assert x in a <==> x in multiset(a);
    assert x in b <==> x in multiset(b);
  }

  /** `filter` on a three-element list, element by element. */
  lemma FilterThree<T(!new)>(a: T, b: T, c: T, p: T -> bool)
    ensures Filter([a, b, c], p) == (if p(a) then [a] else []) + (if p(b) then [b] else []) + (if p(c) then [c] else [])
  {
    FilterTwo(b, c, p);
    FilterCons(a, [b, c], p);
    assert [a] + [b, c] == [a, b, c];
  }

  lemma FilterTwo<T(!new)>(b: T, c: T, p: T -> bool)
    ensures Filter([b, c], p) == (if p(b) then [b] else []) + (if p(c) then [c] else [])
  {
    FilterOne(c, p);
    FilterCons(b, [c], p);
    assert [b] + [c] == [b, c];
  }

  lemma FilterOne<T(!new)>(c: T, p: T -> bool)
    ensures Filter([c], p) == if p(c) then [c] else []
  {
    FilterCons(c, [], p);
    assert [c] + [] == [c];
  }

  /** Nothing passes a test no element meets. */
  lemma {:induction false} FilterNone<T(!new)>(s: seq<T>, p: T -> bool)
    requires forall i :: 0 <= i < |s| ==> !p(s[i])
    ensures Filter(s, p) == []
    decreases |s|
  {
    if s != [] {
      assert forall i :: 0 <= i < |s[1..]| ==> s[1..][i] == s[i + 1];
      FilterNone(s[1..], p);
    }
  }

  /** A test every element meets keeps the whole list. */
  lemma {:induction false} FilterAll<T(!new)>(s: seq<T>, p: T -> bool)
    requires forall i :: 0 <= i < |s| ==> p(s[i])
    ensures Filter(s, p) == s
    decreases |s|
  {
    if s != [] {
      assert forall i :: 0 <= i < |s[1..]| ==> s[1..][i] == s[i + 1];
      FilterAll(s[1..], p);
    }
  }

  /** Filtering a list without repeats gives a list without repeats. */
  lemma {:induction false} FilterNoDuplicates<T(!new)>(s: seq<T>, p: T -> bool)
    requires NoDuplicates(s)
    ensures NoDuplicates(Filter(s, p))
    decreases |s|
  {
    if s != [] {
      var t := s[1..];
      assert NoDuplicates(t) by {
        forall i, j | 0 <= i < j < |t| ensures t[i] != t[j] {
          assert t[i] == s[i + 1] && t[j] == s[j + 1];
        }
      }
      FilterNoDuplicates(t, p);
      var r := Filter(t, p);
      if p(s[0]) {
        assert s[0] !in t by {
          forall j | 0 <= j < |t| ensures t[j] != s[0] {
            assert t[j] == s[j + 1];
          }
        }
        var w := [s[0]] + r;
        forall i, j | 0 <= i < j < |w| ensures w[i] != w[j] {
          assert w[j] == r[j - 1];
          if i > 0 {
            assert w[i] == r[i - 1];
          } else {
            assert r[j - 1] in r;
          }
        }
      }
    }
  }

  /** `s.filter(p).length` */
  function Count<T(!new)>(s: seq<T>, p: T -> bool): nat {
    |Filter(s, p)|
  }

  /** One more element adds one to the count of its own key and nothing to the others. */
  lemma CountSnoc<T(!new)>(s: seq<T>, x: T, p: T -> bool)
    ensures Count(s + [x], p) == Count(s, p) + (if p(x) then 1 else 0)
  {
    FilterAppend(s, [x], p);
    assert Filter([x], p) == if p(x) then [x] else [] by {
      FilterCons(x, [], p);
    }
  }

  lemma {:induction false} FilterAppend<T(!new)>(a: seq<T>, b: seq<T>, p: T -> bool)
    ensures Filter(a + b, p) == Filter(a, p) + Filter(b, p)
    decreases |a|
  {
    if a != [] {
      var head := if p(a[0]) then [a[0]] else [];
      assert (a + b)[0] == a[0];
      assert (a + b)[1..] == a[1..] + b;
      FilterAppend(a[1..], b, p);
      calc {
        Filter(a + b, p);
        head + Filter(a[1..] + b, p);
        head + (Filter(a[1..], p) + Filter(b, p));
        (head + Filter(a[1..], p)) + Filter(b, p);
        Filter(a, p) + Filter(b, p);
      }
    } else {
      assert a + b == b;
    }
  }

  /** Every element kept by the filter satisfies it, and the filter keeps an element's multiplicity. */
  lemma {:induction false} FilterMultiset<T(!new)>(s: seq<T>, p: T -> bool)
    ensures forall x :: x in multiset(Filter(s, p)) ==> p(x)
    ensures forall x :: p(x) ==> multiset(Filter(s, p))[x] == multiset(s)[x]
    decreases |s|
  {
    if s != [] {
      FilterMultiset(s[1..], p);
      assert s == [s[0]] + s[1..];
    }
  }

  /** Filtering with one predicate and then another is filtering with both. */
  lemma {:induction false} FilterFilter<T(!new)>(s: seq<T>, p: T -> bool, q: T -> bool, pq: T -> bool)
    requires forall x :: pq(x) == (p(x) && q(x))
    ensures Filter(Filter(s, p), q) == Filter(s, pq)
    decreases |s|
  {
    if s != [] {
      FilterFilter(s[1..], p, q, pq);
      var head := if p(s[0]) then [s[0]] else [];
      assert Filter(s, p) == head + Filter(s[1..], p);
      FilterAppend(head, Filter(s[1..], p), q);
    }
  }

  /** A filter counts every element exactly when every element passes it. */
  lemma {:induction false} CountAll<T(!new)>(s: seq<T>, p: T -> bool)
    ensures Count(s, p) == |s| <==> forall i :: 0 <= i < |s| ==> p(s[i])
    decreases |s|
  {
    if s != [] {
      CountAll(s[1..], p);
      assert forall i :: 1 <= i < |s| ==> s[i] == s[1..][i - 1];
      if !p(s[0]) {
        assert |Filter(s[1..], p)| <= |s| - 1;
      } else if forall i :: 0 <= i < |s[1..]| ==> p(s[1..][i]) {
        assert forall i :: 0 <= i < |s| ==> p(s[i]) by {
          forall i | 0 <= i < |s| ensures p(s[i]) {
            if i > 0 { assert s[i] == s[1..][i - 1]; }
          }
        }
      }
    }
  }

  /** Two filters that never both hold count no more than the whole sequence, and exactly the filter for either. */
  lemma {:induction false} CountDisjoint<T(!new)>(s: seq<T>, p: T -> bool, q: T -> bool, pq: T -> bool)
    requires forall x :: !(p(x) && q(x))
    requires forall x :: pq(x) == (p(x) || q(x))
    ensures Count(s, p) + Count(s, q) == Count(s, pq) <= |s|
    decreases |s|
  {
    if s != [] { CountDisjoint(s[1..], p, q, pq); }
  }

  // ---------------------------------------------------------------------------
  // map / slice

  /** `s.map(f)` */
  function Map<T, U>(s: seq<T>, f: T -> U): (r: seq<U>)
    ensures |r| == |s|
    ensures forall i :: 0 <= i < |s| ==> r[i] == f(s[i])
  {
    seq(|s|, i requires 0 <= i < |s| => f(s[i]))
  }

  lemma MapAppend<T, U>(a: seq<T>, b: seq<T>, f: T -> U)
    ensures Map(a + b, f) == Map(a, f) + Map(b, f)
  {
  }

  /** An element that passes the filter has its image in the mapped result. */
  lemma MapFilterMember<T(!new), U>(s: seq<T>, p: T -> bool, f: T -> U, x: T)
    requires x in s && p(x)
    ensures f(x) in Map(Filter(s, p), f)
  {
    var r := Filter(s, p);
    var i :| 0 <= i < |r| && r[i] == x;
    assert Map(r, f)[i] == f(x);
  }

  /** One more element mapped: the step of a loop that pushes `f(s[i])`. */
  lemma PrefixSnoc<T>(s: seq<T>, i: nat)
    requires i < |s|
    ensures s[..i + 1] == s[..i] + [s[i]]
  {
  }

  lemma MapSnoc<T, U>(s: seq<T>, i: nat, f: T -> U)
    requires i < |s|
    ensures Map(s[..i + 1], f) == Map(s[..i], f) + [f(s[i])]
  {
    assert s[..i + 1] == s[..i] + [s[i]];
    MapAppend(s[..i], [s[i]], f);
  }

  /** `s.slice(0, n)` */
  function Take<T>(s: seq<T>, n: nat): (r: seq<T>)
    ensures |r| == if |s| <= n then |s| else n
    ensures r <= s
  {
    if |s| <= n then s else s[..n]
  }

  // ---------------------------------------------------------------------------
  // `[...new Set(s)]`: distinct elements in order of first appearance

  predicate NoDuplicates<T(==)>(s: seq<T>) {
    forall i, j :: 0 <= i < j < |s| ==> s[i] != s[j]
  }

  /** Position of the first occurrence of `x` in `s`. */
  function FirstIndex<T(==)>(s: seq<T>, x: T): (k: nat)
    requires x in s
    ensures k < |s| && s[k] == x && x !in s[..k]
    decreases |s|
  {
    if s[0] == x then 0
    else
      var k := FirstIndex(s[1..], x);
      assert s[..k + 1] == [s[0]] + s[1..][..k];
      k + 1
  }

  function Distinct<T(==,!new)>(s: seq<T>): (r: seq<T>)
    ensures NoDuplicates(r)
    ensures forall x :: x in r <==> x in s
    decreases |s|
  {
    if s == [] then []
    else
      var init := s[..|s| - 1];
      var r := Distinct(init);
      assert s == init + [s[|s| - 1]];
      if s[|s| - 1] in r then r else r + [s[|s| - 1]]
  }

  lemma {:induction false} FirstIndexPrefix<T>(s: seq<T>, t: seq<T>, x: T)
    requires x in s
    ensures FirstIndex(s + t, x) == FirstIndex(s, x)
    decreases |s|
  {
    if s[0] != x {
      assert (s + t)[1..] == s[1..] + t;
      FirstIndexPrefix(s[1..], t, x);
    }
  }

  /** The `Set` keeps the order in which values first appear. */
  lemma {:induction false} DistinctFirstAppearance<T(!new)>(s: seq<T>)
    ensures forall i, j :: 0 <= i < j < |Distinct(s)| ==>
      FirstIndex(s, Distinct(s)[i]) < FirstIndex(s, Distinct(s)[j])
    decreases |s|
  {
    if s != [] {
      var init := s[..|s| - 1];
      var last := s[|s| - 1];
      assert s == init + [last];
      DistinctFirstAppearance(init);
      var r := Distinct(init);
      forall x | x in init ensures FirstIndex(s, x) == FirstIndex(init, x) {
        FirstIndexPrefix(init, [last], x);
      }
      if last !in r {
        assert last !in init;
        var k := FirstIndex(s, last);
        assert k == |s| - 1;
      }
    }
  }

  // ---------------------------------------------------------------------------
  // Stable sorting

  /** `le` is total and transitive: a comparator that `sort` or `orderBy` may use. */
  ghost predicate TotalPreorder<T(!new)>(le: (T, T) -> bool) {
    (forall a, b :: le(a, b) || le(b, a)) &&
    (forall a, b, c :: le(a, b) && le(b, c) ==> le(a, c))
  }

  predicate Sorted<T>(s: seq<T>, le: (T, T) -> bool) {
    forall i, j :: 0 <= i < j < |s| ==> le(s[i], s[j])
  }

  /** Places `x` before the first element it does not come after. */
  function Insert<T>(x: T, s: seq<T>, le: (T, T) -> bool): (r: seq<T>)
    ensures multiset(r) == multiset(s) + multiset{x}
    ensures |r| == |s| + 1
    decreases |s|
  {
    if s == [] || le(x, s[0]) then [x] + s
    else
      assert s == [s[0]] + s[1..];
      [s[0]] + Insert(x, s[1..], le)
  }

  /**
   * A stable sort: elements that compare equal keep their original order
   * (each element is inserted before the equal elements that follow it).
   */
  function SortBy<T>(s: seq<T>, le: (T, T) -> bool): (r: seq<T>)
    ensures multiset(r) == multiset(s)
    ensures |r| == |s|
    decreases |s|
  {
    if s == [] then []
    else
      assert s == [s[0]] + s[1..];
      Insert(s[0], SortBy(s[1..], le), le)
  }

  /** Sorting keeps exactly the elements it was given. */
  lemma SortByMembers<T>(s: seq<T>, le: (T, T) -> bool)
    ensures forall x :: x in SortBy(s, le) <==> x in s
  {
    var r := SortBy(s, le);
    forall x ensures x in r <==> x in s {
      assert x in r <==> x in multiset(r);
      assert x in s <==> x in multiset(s);
    }
  }

  lemma {:induction false} InsertSorted<T(!new)>(x: T, s: seq<T>, le: (T, T) -> bool)
    requires TotalPreorder(le) && Sorted(s, le)
    ensures Sorted(Insert(x, s, le), le)
    decreases |s|
  {
    if s == [] {
    } else if le(x, s[0]) {
      BeforeHeadBeforeAll(x, s, le);
      ConsSorted(x, s, le);
    } else {
      var tail := s[1..];
      SortedTail(s, le);
      InsertSorted(x, tail, le);
      var rest := Insert(x, tail, le);
      assert le(s[0], x);
      forall y | y in rest ensures le(s[0], y) {
        assert y in multiset(rest);
        if y != x {
          assert y in multiset(tail);
          var k :| 0 <= k < |tail| && tail[k] == y;
          assert s[k + 1] == y;
        }
      }
      ConsSorted(s[0], rest, le);
    }
  }

  /** A head that comes before every element of a sorted tail keeps the list sorted. */
  lemma ConsSorted<T>(h: T, t: seq<T>, le: (T, T) -> bool)
    requires Sorted(t, le) && forall y :: y in t ==> le(h, y)
    ensures Sorted([h] + t, le)
  {
    var r := [h] + t;
    forall i, j | 0 <= i < j < |r| ensures le(r[i], r[j]) {
      assert r[j] == t[j - 1];
      if i > 0 { assert r[i] == t[i - 1]; }
    }
  }

  /** The sorted sequence is ordered by `le` (it is a permutation by `SortBy`'s own contract). */
  lemma {:induction false} SortBySorted<T(!new)>(s: seq<T>, le: (T, T) -> bool)
    requires TotalPreorder(le)
    ensures Sorted(SortBy(s, le), le)
    decreases |s|
  {
    if s != [] {
      SortBySorted(s[1..], le);
      InsertSorted(s[0], SortBy(s[1..], le), le);
    }
  }

  /** In a sorted sequence, what comes before the head comes before every element. */
  lemma BeforeHeadBeforeAll<T(!new)>(x: T, s: seq<T>, le: (T, T) -> bool)
    requires TotalPreorder(le) && Sorted(s, le) && s != [] && le(x, s[0])
    ensures forall y :: y in s ==> le(x, y)
  {
    forall y | y in s ensures le(x, y) {
      var k :| 0 <= k < |s| && s[k] == y;
      if k > 0 { assert le(s[0], s[k]); }
    }
  }

  lemma SortedTail<T>(s: seq<T>, le: (T, T) -> bool)
    requires Sorted(s, le) && s != []
    ensures Sorted(s[1..], le)
  {
    forall i, j | 0 <= i < j < |s[1..]| ensures le(s[1..][i], s[1..][j]) {
      assert s[1..][i] == s[i + 1] && s[1..][j] == s[j + 1];
    }
  }

  lemma FilterInsertFront<T(!new)>(x: T, s: seq<T>, le: (T, T) -> bool, p: T -> bool)
    requires TotalPreorder(le) && Sorted(s, le) && s != [] && le(x, s[0])
    ensures Filter(Insert(x, s, le), p) == if p(x) then Insert(x, Filter(s, p), le) else Filter(s, p)
  {
    assert Insert(x, s, le) == [x] + s;
    FilterAppend([x], s, p);
    var f := Filter(s, p);
    if p(x) {
      assert Filter([x], p) == [x];
      if f != [] {
        BeforeHeadBeforeAll(x, s, le);
        assert f[0] in s;
        assert Insert(x, f, le) == [x] + f;
      }
    } else {
      assert Filter([x], p) == [];
      assert [] + f == f;
    }
  }

  lemma FilterInsertLater<T(!new)>(x: T, s: seq<T>, le: (T, T) -> bool, p: T -> bool)
    requires s != [] && !le(x, s[0])
    requires Filter(Insert(x, s[1..], le), p) ==
             if p(x) then Insert(x, Filter(s[1..], p), le) else Filter(s[1..], p)
    ensures Filter(Insert(x, s, le), p) == if p(x) then Insert(x, Filter(s, p), le) else Filter(s, p)
  {
    var h, tail := s[0], s[1..];
    var ins := Insert(x, tail, le);
    var ft, fi := Filter(tail, p), Filter(ins, p);
    var head := if p(h) then [h] else [];
    assert Insert(x, s, le) == [h] + ins;
    assert Filter(s, p) == head + ft;
    FilterCons(h, ins, p);
    assert Filter(Insert(x, s, le), p) == head + fi;
    if !p(h) {
      assert head + fi == fi && head + ft == ft;
    } else if p(x) {
      InsertLater(x, h, ft, le);
    }
  }

  /** Inserting after a head that comes first leaves the head in front. */
  lemma InsertLater<T>(x: T, h: T, t: seq<T>, le: (T, T) -> bool)
    requires !le(x, h)
    ensures Insert(x, [h] + t, le) == [h] + Insert(x, t, le)
  {
    assert ([h] + t)[0] == h && ([h] + t)[1..] == t;
  }

  lemma {:induction false} FilterInsert<T(!new)>(x: T, s: seq<T>, le: (T, T) -> bool, p: T -> bool)
    requires TotalPreorder(le) && Sorted(s, le)
    ensures Filter(Insert(x, s, le), p) == if p(x) then Insert(x, Filter(s, p), le) else Filter(s, p)
    decreases |s|
  {
    if s == [] {
    } else if le(x, s[0]) {
      FilterInsertFront(x, s, le, p);
    } else {
      SortedTail(s, le);
      FilterInsert(x, s[1..], le, p);
      FilterInsertLater(x, s, le, p);
    }
  }

  /** Sorting and then filtering gives the same sequence as filtering and then sorting. */
  lemma {:induction false} FilterSortBy<T(!new)>(s: seq<T>, le: (T, T) -> bool, p: T -> bool)
    requires TotalPreorder(le)
    ensures Filter(SortBy(s, le), p) == SortBy(Filter(s, p), le)
    decreases |s|
  {
    if s != [] {
      var x, t := s[0], s[1..];
      assert s == [x] + t;
      FilterSortBy(t, le, p);
      SortBySorted(t, le);
      FilterInsert(x, SortBy(t, le), le, p);
      FilterCons(x, t, p);
      if p(x) {
        SortByCons(x, Filter(t, p), le);
      } else {
        assert Filter(s, p) == Filter(t, p);
      }
    }
  }

  /** Sorting a list with a head inserts the head into the sorted tail. */
  lemma SortByCons<T>(x: T, t: seq<T>, le: (T, T) -> bool)
    ensures SortBy([x] + t, le) == Insert(x, SortBy(t, le), le)
  {
    assert ([x] + t)[0] == x && ([x] + t)[1..] == t;
  }

  /** The elements of a prefix are elements of the whole. */
  lemma PrefixMembers<T>(r: seq<T>, s: seq<T>)
    requires r <= s
    ensures forall x :: x in r ==> x in s
  {
    forall x | x in r ensures x in s {
      var i :| 0 <= i < |r| && r[i] == x;
      assert s[i] == x;
    }
  }

  /** `slice(0, n)` of a sorted sequence is sorted. */
  lemma TakeSorted<T>(s: seq<T>, n: nat, le: (T, T) -> bool)
    requires Sorted(s, le)
    ensures Sorted(Take(s, n), le)
  {
  }

  /** An element that `slice(0, n)` of a sorted sequence leaves out comes after every element kept. */
  lemma TakeCutAfter<T>(s: seq<T>, n: nat, le: (T, T) -> bool, x: T)
    requires Sorted(s, le) && x in s && x !in Take(s, n)
    ensures |Take(s, n)| == n
    ensures forall y :: y in Take(s, n) ==> le(y, x)
  {
    var j :| 0 <= j < |s| && s[j] == x;
    forall y | y in Take(s, n) ensures le(y, x) {
      var i :| 0 <= i < |Take(s, n)| && Take(s, n)[i] == y;
      assert s[i] == y;
    }
  }

  /** A sequence that is already ordered is left as it is (the sort is stable). */
  lemma {:induction false} SortBySortedIdentity<T>(s: seq<T>, le: (T, T) -> bool)
    requires Sorted(s, le)
    ensures SortBy(s, le) == s
    decreases |s|
  {
    if s != [] {
      SortedTail(s, le);
      SortBySortedIdentity(s[1..], le);
      assert s == [s[0]] + s[1..];
      if s[1..] != [] { assert le(s[0], s[1..][0]); }
    }
  }

  // ---------------------------------------------------------------------------
  // reverse

  function Reverse<T>(s: seq<T>): (r: seq<T>)
    ensures |r| == |s|
    ensures forall i :: 0 <= i < |s| ==> r[i] == s[|s| - 1 - i]
    ensures multiset(r) == multiset(s)
    decreases |s|
  {
    if s == [] then []
    else
      assert s == [s[0]] + s[1..];
      Reverse(s[1..]) + [s[0]]
  }

  // ---------------------------------------------------------------------------
  // Filter and map together

  /** Filtering before a map is filtering after it, with the predicate read through the map. */
  lemma {:induction false} MapFilter<T(!new), U(!new)>(s: seq<T>, f: T -> U, p: T -> bool, q: U -> bool)
    requires forall x :: p(x) == q(f(x))
    ensures Map(Filter(s, p), f) == Filter(Map(s, f), q)
    decreases |s|
  {
    if s != [] {
      MapFilter(s[1..], f, p, q);
      var head := if p(s[0]) then [s[0]] else [];
      assert Filter(s, p) == head + Filter(s[1..], p);
      MapAppend(head, Filter(s[1..], p), f);
      assert Map(s, f) == [f(s[0])] + Map(s[1..], f);
      FilterCons(f(s[0]), Map(s[1..], f), q);
    }
  }

  /** Filters with the same verdict on every element keep the same elements. */
  lemma {:induction false} FilterSame<T(!new)>(s: seq<T>, p: T -> bool, q: T -> bool)
    requires forall x :: p(x) == q(x)
    ensures Filter(s, p) == Filter(s, q)
    decreases |s|
  {
    if s != [] { FilterSame(s[1..], p, q); }
  }

  // ---------------------------------------------------------------------------
  // Order-preserving subsequences

  /** `a` is `b` with some elements deleted: `a[i]` sits at an increasing position `idx[i]` of `b`. */
  ghost predicate IsSubsequence<T>(a: seq<T>, b: seq<T>) {
    exists idx: seq<nat> :: Embeds(idx, a, b)
  }

  ghost predicate Embeds<T>(idx: seq<nat>, a: seq<T>, b: seq<T>) {
    |idx| == |a| &&
    (forall i :: 0 <= i < |idx| ==> idx[i] < |b| && a[i] == b[idx[i]]) &&
    (forall i, j :: 0 <= i < j < |idx| ==> idx[i] < idx[j])
  }

  /** The positions of `s` that the filter keeps. */
  lemma {:induction false} FilterEmbedding<T(!new)>(s: seq<T>, p: T -> bool) returns (idx: seq<nat>)
    ensures Embeds(idx, Filter(s, p), s)
    decreases |s|
  {
    if s == [] {
      idx := [];
    } else {
      var rest := FilterEmbedding(s[1..], p);
      var ft := Filter(s[1..], p);
      var shifted := ShiftEmbedding(rest, ft, s);
      if p(s[0]) {
        assert Filter(s, p) == [s[0]] + ft;
        idx := ConsEmbedding(shifted, ft, s);
      } else {
        assert Filter(s, p) == ft;
        idx := shifted;
      }
    }
  }

  lemma ShiftEmbedding<T>(rest: seq<nat>, a: seq<T>, s: seq<T>) returns (shifted: seq<nat>)
    requires s != [] && Embeds(rest, a, s[1..])
    ensures Embeds(shifted, a, s)
    ensures forall i :: 0 <= i < |shifted| ==> shifted[i] > 0
  {
    shifted := seq(|rest|, i requires 0 <= i < |rest| => rest[i] + 1);
    forall i | 0 <= i < |shifted| ensures shifted[i] < |s| && a[i] == s[shifted[i]] {
      assert s[shifted[i]] == s[1..][rest[i]];
    }
  }

  lemma ConsEmbedding<T>(shifted: seq<nat>, a: seq<T>, s: seq<T>) returns (idx: seq<nat>)
    requires s != [] && Embeds(shifted, a, s)
    requires forall i :: 0 <= i < |shifted| ==> shifted[i] > 0
    ensures Embeds(idx, [s[0]] + a, s)
  {
    idx := [0] + shifted;
    var f := [s[0]] + a;
    forall i | 0 <= i < |idx| ensures idx[i] < |s| && f[i] == s[idx[i]] {
      if i > 0 { assert idx[i] == shifted[i - 1] && f[i] == a[i - 1]; }
    }
    forall i, j | 0 <= i < j < |idx| ensures idx[i] < idx[j] {
      if i > 0 { assert idx[i] == shifted[i - 1]; }
      assert idx[j] == shifted[j - 1];
    }
  }

  /** `filter` keeps an order-preserving subsequence. */
  lemma FilterIsSubsequence<T(!new)>(s: seq<T>, p: T -> bool)
    ensures IsSubsequence(Filter(s, p), s)
  {
    var idx := FilterEmbedding(s, p);
  }
}
