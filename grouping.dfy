/**
 * Grouping a list by a string key into an object used as a dictionary, as
 * the statistics code does with `reduce` and `forEach`: the keys in order of
 * first insertion (the order `Object.keys`, `Object.values` and
 * `Object.entries` give for keys that are not integer-like) and, per key,
 * how many elements carry it.
 */
module Grouping {
  import Seqs

  function KeyIs<T>(key: T -> string, k: string): T -> bool {
    (x: T) => key(x) == k
  }

  function KeyAnd<T>(key: T -> string, k: string, flag: T -> bool): T -> bool {
    (x: T) => key(x) == k && flag(x)
  }

  /** The keys of the dictionary, in insertion order. */
  function Keys<T(!new)>(s: seq<T>, key: T -> string): (r: seq<string>)
    ensures Seqs.NoDuplicates(r)
    ensures forall k :: k in r <==> exists i :: 0 <= i < |s| && key(s[i]) == k
  {
    var m := Seqs.Map(s, key);
    assert forall k :: k in m <==> exists i :: 0 <= i < |s| && key(s[i]) == k by {
      forall k | k in m ensures exists i :: 0 <= i < |s| && key(s[i]) == k {
        var i :| 0 <= i < |m| && m[i] == k;
        assert key(s[i]) == k;
      }
    }
    Seqs.Distinct(m)
  }

  /** The sum of the per-key counts over a list of keys. */
  function SumCounts<T(!new)>(s: seq<T>, key: T -> string, ks: seq<string>): nat
    decreases |ks|
  {
    if ks == [] then 0 else Seqs.Count(s, KeyIs(key, ks[0])) + SumCounts(s, key, ks[1..])
  }

  /** How often `k` occurs in `ks`. */
  function Occurrences(ks: seq<string>, k: string): nat
    decreases |ks|
  {
    if ks == [] then 0 else (if ks[0] == k then 1 else 0) + Occurrences(ks[1..], k)
  }

  lemma {:induction false} OccurrencesOfDistinct(ks: seq<string>, k: string)
    requires Seqs.NoDuplicates(ks)
    ensures Occurrences(ks, k) == if k in ks then 1 else 0
    decreases |ks|
  {
    if ks != [] {
      OccurrencesOfDistinct(ks[1..], k);
      if ks[0] == k {
        assert k !in ks[1..] by {
          forall j | 0 <= j < |ks[1..]| ensures ks[1..][j] != k {
            assert ks[1..][j] == ks[j + 1];
          }
        }
      }
    }
  }

  lemma {:induction false} SumCountsSnoc<T(!new)>(s: seq<T>, x: T, key: T -> string, ks: seq<string>)
    ensures SumCounts(s + [x], key, ks) == SumCounts(s, key, ks) + Occurrences(ks, key(x))
    decreases |ks|
  {
    if ks != [] {
      SumCountsSnoc(s, x, key, ks[1..]);
      Seqs.CountSnoc(s, x, KeyIs(key, ks[0]));
    }
  }

  lemma {:induction false} SumCountsAppend<T(!new)>(s: seq<T>, key: T -> string, ks: seq<string>, k: string)
    ensures SumCounts(s, key, ks + [k]) == SumCounts(s, key, ks) + Seqs.Count(s, KeyIs(key, k))
    decreases |ks|
  {
    if ks == [] {
      assert ks + [k] == [k];
    } else {
      assert (ks + [k])[1..] == ks[1..] + [k];
      SumCountsAppend(s, key, ks[1..], k);
    }
  }

  /** A key no element carries counts nothing. */
  lemma CountAbsentKey<T(!new)>(s: seq<T>, key: T -> string, k: string)
    requires k !in Keys(s, key)
    ensures Seqs.Count(s, KeyIs(key, k)) == 0
  {
    Seqs.FilterNone(s, KeyIs(key, k));
  }

  /** A key of the dictionary counts at least one element. */
  lemma KeyCounted<T(!new)>(s: seq<T>, key: T -> string, k: string)
    requires k in Keys(s, key)
    ensures Seqs.Count(s, KeyIs(key, k)) > 0
  {
    var i :| 0 <= i < |s| && key(s[i]) == k;
    assert s[i] in s;
    assert s[i] in Seqs.Filter(s, KeyIs(key, k));
  }

  /** The keys of a list with one more element: its key is added at the end if it is new. */
  lemma KeysSnoc<T(!new)>(s: seq<T>, x: T, key: T -> string)
    ensures Keys(s + [x], key) == if key(x) in Keys(s, key) then Keys(s, key) else Keys(s, key) + [key(x)]
  {
    Seqs.MapAppend(s, [x], key);
    var m := Seqs.Map(s, key) + [key(x)];
    assert m[..|m| - 1] == Seqs.Map(s, key);
  }

  /** The groups partition the list: the per-key counts add up to its length. */
  lemma {:induction false} CountsPartition<T(!new)>(s: seq<T>, key: T -> string)
    ensures SumCounts(s, key, Keys(s, key)) == |s|
    decreases |s|
  {
    if s != [] {
      var init, x := s[..|s| - 1], s[|s| - 1];
      assert s == init + [x];
      CountsPartition(init, key);
      var ks := Keys(init, key);
      KeysSnoc(init, x, key);
      SumCountsSnoc(init, x, key, ks);
      OccurrencesOfDistinct(ks, key(x));
      if key(x) !in ks {
        SumCountsAppend(s, key, ks, key(x));
        CountAbsentKey(init, key, key(x));
        Seqs.CountSnoc(init, x, KeyIs(key, key(x)));
      }
    }
  }

  /** `m` holds, for each key of `keys` and no other, the number of elements of `done` that `count(key)` picks. */
  ghost predicate Counted<T(!new)>(done: seq<T>, keys: seq<string>, m: map<string, nat>, count: string -> (T -> bool)) {
    (forall k :: k in m <==> k in keys) &&
    (forall k :: k in keys ==> m[k] == Seqs.Count(done, count(k)))
  }

  /** What the grouping loop has built after the elements of `done`. */
  ghost predicate Tallied<T(!new)>(done: seq<T>, key: T -> string, flag: T -> bool,
                                  keys: seq<string>, totals: map<string, nat>, flagged: map<string, nat>) {
    keys == Keys(done, key) &&
    Counted(done, keys, totals, k => KeyIs(key, k)) &&
    Counted(done, keys, flagged, k => KeyAnd(key, k, flag))
  }

  /** `acc[k] = (acc[k] || 0) + (inc ? 1 : 0)` */
  function Bump(m: map<string, nat>, k: string, inc: bool): map<string, nat> {
    m[k := (if k in m then m[k] else 0) + (if inc then 1 else 0)]
  }

  function AddKey(keys: seq<string>, k: string): seq<string> {
    if k in keys then keys else keys + [k]
  }

  /** Adding one element under key `k` keeps one dictionary of counts up to date. */
  lemma BumpCounted<T(!new)>(done: seq<T>, x: T, keys: seq<string>, m: map<string, nat>,
                             count: string -> (T -> bool), k: string, inc: bool)
    requires Counted(done, keys, m, count)
    requires k !in keys ==> Seqs.Count(done, count(k)) == 0
    requires forall k' :: count(k')(x) <==> k' == k && inc
    ensures Counted(done + [x], AddKey(keys, k), Bump(m, k, inc), count)
  {
    forall k' | k' in AddKey(keys, k)
      ensures Bump(m, k, inc)[k'] == Seqs.Count(done + [x], count(k'))
    {
      Seqs.CountSnoc(done, x, count(k'));
    }
  }

  lemma TallyStep<T(!new)>(done: seq<T>, x: T, key: T -> string, flag: T -> bool,
                           keys: seq<string>, totals: map<string, nat>, flagged: map<string, nat>)
    requires Tallied(done, key, flag, keys, totals, flagged)
    ensures Tallied(done + [x], key, flag, AddKey(keys, key(x)), Bump(totals, key(x), true), Bump(flagged, key(x), flag(x)))
  {
    var k := key(x);
    KeysSnoc(done, x, key);
    if k !in keys {
      CountAbsentKey(done, key, k);
      Seqs.FilterNone(done, KeyAnd(key, k, flag));
    }
    BumpCounted(done, x, keys, totals, k' => KeyIs(key, k'), k, true);
    BumpCounted(done, x, keys, flagged, k' => KeyAnd(key, k', flag), k, flag(x));
  }

  /**
   * The grouping loop: for each element, create the entry of its key when
   * there is none, then add one to its total and, when `flag` holds, to its
   * flagged count.
   */
  method Tally<T(!new)>(s: seq<T>, key: T -> string, flag: T -> bool)
    returns (keys: seq<string>, totals: map<string, nat>, flagged: map<string, nat>)
    ensures keys == Keys(s, key)
    ensures forall k :: k in totals <==> k in keys
    ensures forall k :: k in flagged <==> k in keys
    ensures forall k :: k in keys ==> totals[k] == Seqs.Count(s, KeyIs(key, k))
    ensures forall k :: k in keys ==> flagged[k] == Seqs.Count(s, KeyAnd(key, k, flag))
  {
    keys, totals, flagged := [], map[], map[];
    var i := 0;
    while i < |s|
      invariant 0 <= i <= |s|
      invariant Tallied(s[..i], key, flag, keys, totals, flagged)
    {
      var x := s[i];
      var k := key(x);
      TallyStep(s[..i], x, key, flag, keys, totals, flagged);
      Seqs.PrefixSnoc(s, i);
      keys := AddKey(keys, k);
      totals := Bump(totals, k, true);
      flagged := Bump(flagged, k, flag(x));
      i := i + 1;
    }
    assert s[..|s|] == s;
    TalliedMeans(s, key, flag, keys, totals, flagged);
  }

  lemma TalliedMeans<T(!new)>(s: seq<T>, key: T -> string, flag: T -> bool,
                              keys: seq<string>, totals: map<string, nat>, flagged: map<string, nat>)
    requires Tallied(s, key, flag, keys, totals, flagged)
    ensures keys == Keys(s, key)
    ensures forall k :: k in totals <==> k in keys
    ensures forall k :: k in flagged <==> k in keys
    ensures forall k :: k in keys ==> totals[k] == Seqs.Count(s, KeyIs(key, k))
    ensures forall k :: k in keys ==> flagged[k] == Seqs.Count(s, KeyAnd(key, k, flag))
  {
  }

  /** The grouping loop when only the totals are wanted: `acc[k] = (acc[k] || 0) + 1`. */
  method CountBy<T(!new)>(s: seq<T>, key: T -> string) returns (keys: seq<string>, totals: map<string, nat>)
    ensures keys == Keys(s, key)
    ensures forall k :: k in totals <==> k in keys
    ensures forall k :: k in keys ==> totals[k] == Seqs.Count(s, KeyIs(key, k))
  {
    var unused;
    keys, totals, unused := Tally(s, key, (x: T) => false);
  }
}
