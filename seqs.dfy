/**
 * Generic sequence operations that stand for the pandas column operations the
 * dashboard uses: a boolean-mask row filter, `Series.map`, and `value_counts`.
 */
module Seqs {

  /** The elements of `xs` that satisfy `p`, in their original order (a boolean-mask row filter). */
  function Filter<T(==)>(xs: seq<T>, p: T -> bool): (ys: seq<T>)
    ensures |ys| <= |xs|
    ensures forall y :: y in ys ==> y in xs && p(y)
  {
    if xs == [] then [] else (if p(xs[0]) then [xs[0]] else []) + Filter(xs[1..], p)
  }

  /** `f` applied to every element, position by position (`Series.map`). */
  function Map<T, U>(xs: seq<T>, f: T -> U): (ys: seq<U>)
    ensures |ys| == |xs|
    ensures forall i :: 0 <= i < |xs| ==> ys[i] == f(xs[i])
  {
    if xs == [] then [] else [f(xs[0])] + Map(xs[1..], f)
  }

  /** Pairs `a[k]` with `b[k]`, position by position, up to the shorter length. */
  function Zip<A, B>(a: seq<A>, b: seq<B>): (z: seq<(A, B)>)
    ensures |z| == if |a| <= |b| then |a| else |b|
    ensures forall k :: 0 <= k < |z| ==> z[k] == (a[k], b[k])
  {
    if a == [] || b == [] then [] else [(a[0], b[0])] + Zip(a[1..], b[1..])
  }

  /** `a` is obtained from `b` by deleting elements, without reordering the rest. */
  predicate IsSubsequence<T(==)>(a: seq<T>, b: seq<T>)
    decreases |b|
  {
    if b == [] then a == []
    else (a != [] && a[0] == b[0] && IsSubsequence(a[1..], b[1..])) || IsSubsequence(a, b[1..])
  }

  lemma {:induction false} SubsequenceReflexive<T>(xs: seq<T>)
    ensures IsSubsequence(xs, xs)
  {
    if xs != [] {
      SubsequenceReflexive(xs[1..]);
    }
  }

  lemma {:induction false} SubsequenceTransitive<T>(a: seq<T>, b: seq<T>, c: seq<T>)
    requires IsSubsequence(a, b) && IsSubsequence(b, c)
    ensures IsSubsequence(a, c)
    decreases |c|
  {
    if c != [] {
      if b != [] && b[0] == c[0] && IsSubsequence(b[1..], c[1..]) {
        if a != [] && a[0] == b[0] && IsSubsequence(a[1..], b[1..]) {
          SubsequenceTransitive(a[1..], b[1..], c[1..]);
        } else {
          SubsequenceTransitive(a, b[1..], c[1..]);
        }
      } else {
        SubsequenceTransitive(a, b, c[1..]);
      }
    }
  }

  /** A filter keeps the order of what it keeps. */
  lemma {:induction false} FilterIsSubsequence<T>(xs: seq<T>, p: T -> bool)
    ensures IsSubsequence(Filter(xs, p), xs)
  {
    if xs != [] {
      FilterIsSubsequence(xs[1..], p);
      if p(xs[0]) {
        assert Filter(xs, p) == [xs[0]] + Filter(xs[1..], p);
      } else {
        assert Filter(xs, p) == Filter(xs[1..], p);
      }
    }
  }

  /** A filter keeps every occurrence of an element that passes, and none of one that fails. */
  lemma {:induction false} FilterMultiplicity<T>(xs: seq<T>, p: T -> bool, x: T)
    ensures multiset(Filter(xs, p))[x] == if p(x) then multiset(xs)[x] else 0
  {
    if xs != [] {
      FilterMultiplicity(xs[1..], p, x);
      assert xs == [xs[0]] + xs[1..];
    }
  }

  /** A filter that every element passes changes nothing. */
  lemma {:induction false} FilterKeepsAll<T>(xs: seq<T>, p: T -> bool)
    requires forall x :: x in xs ==> p(x)
    ensures Filter(xs, p) == xs
  {
    if xs != [] {
      assert xs[0] in xs;
      assert forall x :: x in xs[1..] ==> x in xs;
      FilterKeepsAll(xs[1..], p);
      assert xs == [xs[0]] + xs[1..];
    }
  }

  lemma MapConcat<T, U>(a: seq<T>, b: seq<T>, f: T -> U)
    ensures Map(a + b, f) == Map(a, f) + Map(b, f)
  {
  }

  /** One row of a `value_counts` table: a distinct value and how often it occurs. */
  datatype Bucket<K> = Bucket(key: K, count: nat)

  function Keys<K>(bs: seq<Bucket<K>>): (ks: seq<K>)
    ensures |ks| == |bs|
    ensures forall i :: 0 <= i < |bs| ==> ks[i] == bs[i].key
  {
    Map(bs, (b: Bucket<K>) => b.key)
  }

  /** The sum of the counts of a table. */
  function Total<K>(bs: seq<Bucket<K>>): nat
  {
    if bs == [] then 0 else bs[0].count + Total(bs[1..])
  }

  /** The count listed for `k`, or 0 when `k` is not listed. */
  function Lookup<K(==)>(bs: seq<Bucket<K>>, k: K): nat
  {
    if bs == [] then 0 else if bs[0].key == k then bs[0].count else Lookup(bs[1..], k)
  }

  predicate DistinctKeys<K(==)>(bs: seq<Bucket<K>>)
  {
    forall i, j :: 0 <= i < j < |bs| ==> bs[i].key != bs[j].key
  }

  predicate PositiveCounts<K>(bs: seq<Bucket<K>>)
  {
    forall i :: 0 <= i < |bs| ==> bs[i].count > 0
  }

  /** Records one more occurrence of `x`: bumps its bucket, or appends a new one. */
  function Tally<K(==)>(bs: seq<Bucket<K>>, x: K): (r: seq<Bucket<K>>)
    ensures Total(r) == Total(bs) + 1
  {
    if bs == [] then [Bucket(x, 1)]
    else if bs[0].key == x then [Bucket(x, bs[0].count + 1)] + bs[1..]
    else [bs[0]] + Tally(bs[1..], x)
  }

  lemma {:induction false} TallyLookup<K>(bs: seq<Bucket<K>>, x: K, k: K)
    ensures Lookup(Tally(bs, x), k) == Lookup(bs, k) + (if k == x then 1 else 0)
  {
    if bs != [] && bs[0].key != x {
      TallyLookup(bs[1..], x, k);
    }
  }

  /** Tally only bumps or adds the bucket of `x`; every other bucket is one of `bs`. */
  lemma {:induction false} TallyBuckets<K>(bs: seq<Bucket<K>>, x: K)
    ensures forall i :: 0 <= i < |Tally(bs, x)| ==> Tally(bs, x)[i].key == x || Tally(bs, x)[i] in bs
    ensures PositiveCounts(bs) ==> PositiveCounts(Tally(bs, x))
    ensures DistinctKeys(bs) ==> DistinctKeys(Tally(bs, x))
  {
    if bs != [] && bs[0].key != x {
      TallyBuckets(bs[1..], x);
      var rest := Tally(bs[1..], x);
      assert Tally(bs, x) == [bs[0]] + rest;
      assert forall i :: 0 <= i < |rest| ==> rest[i].key == x || rest[i] in bs[1..];
    }
  }

  /**
   * The distinct values of `xs` with their number of occurrences, in order of
   * first appearance (pandas orders them by count instead; nothing here relies
   * on the order).
   */
  function ValueCounts<K(==,!new)>(xs: seq<K>): (bs: seq<Bucket<K>>)
    ensures DistinctKeys(bs) && PositiveCounts(bs)
    ensures forall k :: Lookup(bs, k) == multiset(xs)[k]
    ensures Total(bs) == |xs|
  {
    if xs == [] then []
    else
      var init, last := xs[..|xs| - 1], xs[|xs| - 1];
      assert xs == init + [last];
      var prev := ValueCounts(init);
      TallyBuckets(prev, last);
      assert forall k :: Lookup(Tally(prev, last), k) == multiset(xs)[k] by {
        forall k ensures Lookup(Tally(prev, last), k) == multiset(xs)[k] {
          TallyLookup(prev, last, k);
        }
      }
      Tally(prev, last)
  }

  /** With distinct keys, Lookup finds the one bucket a key has. */
  lemma {:induction false} LookupMember<K>(bs: seq<Bucket<K>>, i: nat)
    requires DistinctKeys(bs) && i < |bs|
    ensures Lookup(bs, bs[i].key) == bs[i].count
  {
    if i > 0 {
      LookupMember(bs[1..], i - 1);
    }
  }

  /** A key that no bucket carries has count 0. */
  lemma {:induction false} LookupAbsent<K>(bs: seq<Bucket<K>>, k: K)
    requires forall i :: 0 <= i < |bs| ==> bs[i].key != k
    ensures Lookup(bs, k) == 0
  {
    if bs != [] {
      LookupAbsent(bs[1..], k);
    }
  }

  /** With positive counts, a key is listed exactly when its count is positive. */
  lemma {:induction false} LookupListed<K>(bs: seq<Bucket<K>>, k: K)
    requires PositiveCounts(bs)
    ensures k in Keys(bs) <==> Lookup(bs, k) > 0
  {
    if bs != [] {
      LookupListed(bs[1..], k);
      assert Keys(bs) == [bs[0].key] + Keys(bs[1..]);
    }
  }

  /**
   * The `value_counts` table read as a whole: every bucket holds its value's
   * exact number of occurrences, exactly the values that occur are listed,
   * each once, and the counts add up to the length of the column.
   */
  lemma ValueCountsCorrect<K(!new)>(xs: seq<K>)
    ensures var bs := ValueCounts(xs);
      && (forall i :: 0 <= i < |bs| ==> bs[i].count == multiset(xs)[bs[i].key] > 0)
      && (forall k :: k in Keys(bs) <==> k in xs)
      && DistinctKeys(bs)
      && Total(bs) == |xs|
  {
    var bs := ValueCounts(xs);
    forall i | 0 <= i < |bs| ensures bs[i].count == multiset(xs)[bs[i].key] {
      LookupMember(bs, i);
    }
    forall k ensures k in Keys(bs) <==> k in xs {
      LookupListed(bs, k);
    }
  }
}
