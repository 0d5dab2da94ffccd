/**
 * Sequence operations shared by the server and the client model: JavaScript's
 * `Array.filter` and `Array.find`, MongoDB's `$addToSet`, and the link between a
 * map keyed by id and the insertion order of its keys.
 */
module Seqs {
  import opened Optional

  /** No element occurs twice. */
  predicate NoDuplicates<T(==)>(s: seq<T>) {
    forall i, j :: 0 <= i < j < |s| ==> s[i] != s[j]
  }

  /** `r` can be obtained from `s` by deleting elements: `r` keeps the relative order of `s`. */
  predicate IsSubseq<T(==)>(r: seq<T>, s: seq<T>)
    decreases |s|
  {
    if r == [] then true
    else if s == [] then false
    else if r[0] == s[0] then IsSubseq(r[1..], s[1..])
    else IsSubseq(r, s[1..])
  }

  /** `Array.filter`: the elements of `s` that satisfy `keep`, in their original order. */
  function Filter<T(==,!new)>(s: seq<T>, keep: T -> bool): (r: seq<T>)
    ensures |r| <= |s|
    ensures forall x :: x in r <==> x in s && keep(x)
    ensures IsSubseq(r, s)
    ensures NoDuplicates(s) ==> NoDuplicates(r)
  {
    if s == [] then []
    else if keep(s[0]) then [s[0]] + Filter(s[1..], keep)
    else Filter(s[1..], keep)
  }

  /** A filter whose predicate holds everywhere returns its input. */
  lemma {:induction false} FilterKeepsAll<T(!new)>(s: seq<T>, keep: T -> bool)
    requires forall x :: x in s ==> keep(x)
    ensures Filter(s, keep) == s
  {
    if s != [] {
      FilterKeepsAll(s[1..], keep);
    }
  }

  /** Filtering distributes over concatenation. */
  lemma {:induction false} FilterConcat<T(!new)>(a: seq<T>, b: seq<T>, keep: T -> bool)
    ensures Filter(a + b, keep) == Filter(a, keep) + Filter(b, keep)
  {
    if a == [] {
      assert a + b == b;
    } else {
      assert (a + b)[0] == a[0] && (a + b)[1..] == a[1..] + b;
      FilterConcat(a[1..], b, keep);
    }
  }

  /** One step of a filter over the suffix of `s` that starts at `k`. */
  lemma FilterStep<T(!new)>(s: seq<T>, keep: T -> bool, k: nat)
    requires k < |s|
    ensures Filter(s[k..], keep) == if keep(s[k]) then [s[k]] + Filter(s[k + 1..], keep) else Filter(s[k + 1..], keep)
  {
    assert s[k..][1..] == s[k + 1..];
  }

  /** Filters whose predicates agree on the elements of `s` return the same sequence. */
  lemma {:induction false} FilterAgree<T(!new)>(s: seq<T>, p: T -> bool, q: T -> bool)
    requires forall x :: x in s ==> p(x) == q(x)
    ensures Filter(s, p) == Filter(s, q)
  {
    if s != [] {
      FilterAgree(s[1..], p, q);
    }
  }

  /** Filtering twice keeps what passes both filters: consecutive filters are one filter on the conjunction. */
  lemma {:induction false} FilterFilter<T(!new)>(s: seq<T>, p: T -> bool, q: T -> bool)
    ensures Filter(Filter(s, p), q) == Filter(s, (x: T) => p(x) && q(x))
  {
    if s != [] {
      FilterFilter(s[1..], p, q);
      if p(s[0]) {
        var rest := Filter(s[1..], p);
        assert ([s[0]] + rest)[0] == s[0] && ([s[0]] + rest)[1..] == rest;
      }
    }
  }

  /** Three consecutive filters are one filter on the conjunction of the three. */
  lemma FilterThree<T(!new)>(s: seq<T>, p: T -> bool, q: T -> bool, r: T -> bool, all: T -> bool)
    requires forall x :: all(x) == (p(x) && q(x) && r(x))
    ensures Filter(Filter(Filter(s, p), q), r) == Filter(s, all)
  {
    var pq := (x: T) => p(x) && q(x);
    FilterFilter(s, p, q);
    FilterFilter(s, pq, r);
    FilterAgree(s, (x: T) => pq(x) && r(x), all);
  }

  /** The index of the first element of `s` satisfying `p`, or `|s|` when there is none. */
  function FindIndex<T>(s: seq<T>, p: T -> bool): (k: nat)
    ensures k <= |s|
    ensures k < |s| ==> p(s[k])
    ensures forall j :: 0 <= j < k ==> !p(s[j])
  {
    if s == [] then 0
    else if p(s[0]) then 0
    else 1 + FindIndex(s[1..], p)
  }

  /** `Array.find`: the first element of `s` satisfying `p`, or nothing. */
  function Find<T>(s: seq<T>, p: T -> bool): (r: Option<T>)
    ensures r.None? <==> forall x :: x in s ==> !p(x)
    ensures r.Some? ==> r.value in s && p(r.value)
    ensures r.Some? ==> exists k :: 0 <= k < |s| && s[k] == r.value && forall j :: 0 <= j < k ==> !p(s[j])
  {
    var k := FindIndex(s, p);
    if k < |s| then Some(s[k]) else None
  }

  /** MongoDB's `$addToSet` on an array field: append `x` unless it is already present. */
  function AddToSet<T(==,!new)>(s: seq<T>, x: T): (r: seq<T>)
    ensures forall y :: y in r <==> y in s || y == x
    ensures |s| <= |r| <= |s| + 1 && r[..|s|] == s
  {
    if x in s then s else s + [x]
  }

  /** On a duplicate-free sequence `$addToSet` keeps it duplicate-free, and `x` then occurs exactly once. */
  lemma AddToSetOnce<T(!new)>(s: seq<T>, x: T)
    requires NoDuplicates(s)
    ensures NoDuplicates(AddToSet(s, x))
    ensures multiset(AddToSet(s, x))[x] == 1
  {
    NoDuplicatesCount(AddToSet(s, x), x);
  }

  /** In a sequence without duplicates an element occurs once if present and never otherwise. */
  lemma {:induction false} NoDuplicatesCount<T>(s: seq<T>, x: T)
    requires NoDuplicates(s)
    ensures multiset(s)[x] == if x in s then 1 else 0
  {
    if s != [] {
      assert s == [s[0]] + s[1..];
      NoDuplicatesCount(s[1..], x);
      if s[0] == x {
        assert x !in s[1..] by {
          forall j | 1 <= j < |s| ensures s[j] != x { }
        }
      }
    }
  }

  /** Repeating `$addToSet` with the same element changes nothing. */
  lemma AddToSetIdempotent<T(!new)>(s: seq<T>, x: T)
    ensures AddToSet(AddToSet(s, x), x) == AddToSet(s, x)
  {
  }

  /** `order` lists every key of `m` exactly once: the natural (insertion) order of a collection. */
  ghost predicate Indexes<K(!new), V>(order: seq<K>, m: map<K, V>) {
    NoDuplicates(order) && (forall k :: k in order <==> k in m)
  }

  /** Inserting a new key appends it to the natural order. */
  lemma IndexesInsert<K(!new), V>(order: seq<K>, m: map<K, V>, k: K, v: V)
    requires Indexes(order, m) && k !in m
    ensures Indexes(order + [k], m[k := v])
  {
    forall i, j | 0 <= i < j < |order| + 1 ensures (order + [k])[i] != (order + [k])[j] {
      if j == |order| {
        assert order[i] in m;
      }
    }
  }

  /** Replacing the value of a stored key keeps its place in the natural order. */
  lemma IndexesUpdate<K(!new), V>(order: seq<K>, m: map<K, V>, k: K, v: V)
    requires Indexes(order, m) && k in m
    ensures Indexes(order, m[k := v])
  {
  }

  /** Deleting a key drops it from the natural order and keeps the others in place. */
  lemma IndexesRemove<K(!new), V>(order: seq<K>, m: map<K, V>, k: K)
    requires Indexes(order, m)
    ensures Indexes(Filter(order, (x: K) => x != k), m - {k})
  {
  }

  /** The values of `m` in the order given by `order`. */
  function InOrder<K, V>(m: map<K, V>, order: seq<K>): (r: seq<V>)
    requires forall k :: k in order ==> k in m
    ensures |r| == |order|
    ensures forall i :: 0 <= i < |order| ==> r[i] == m[order[i]]
  {
    seq(|order|, i requires 0 <= i < |order| => m[order[i]])
  }

  /** Listing a collection in its natural order yields exactly its stored values. */
  lemma InOrderValues<K(!new), V>(m: map<K, V>, order: seq<K>)
    requires Indexes(order, m)
    ensures forall v :: v in InOrder(m, order) <==> v in m.Values
  {
    var r := InOrder(m, order);
    forall v | v in m.Values ensures v in r {
      var k :| k in m && m[k] == v;
      var i :| 0 <= i < |order| && order[i] == k;
      assert r[i] == v;
    }
  }

  /** The natural order of a collection is as long as the collection is large. */
  lemma {:induction false} IndexesSize<K(!new), V>(order: seq<K>, m: map<K, V>)
    requires Indexes(order, m)
    ensures |order| == |m|
  {
    DistinctElements(order);
    assert (set k | k in order) == m.Keys;
  }

  /** A sequence without duplicates has as many distinct elements as it is long. */
  lemma {:induction false} DistinctElements<T>(s: seq<T>)
    requires NoDuplicates(s)
    ensures |set x | x in s| == |s|
  {
    if s != [] {
      DistinctElements(s[1..]);
      assert (set x | x in s) == {s[0]} + (set x | x in s[1..]);
      assert s[0] !in (set x | x in s[1..]) by {
        forall j | 1 <= j < |s| ensures s[j] != s[0] { }
      }
    }
  }
}
