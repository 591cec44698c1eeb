// Python dictionaries that accumulate per key, and the conservation law behind them:
// grouping values by key and then adding the groups loses nothing.
module Grouping {
  import opened Common

  ghost predicate Distinct<K(!new)>(ks: seq<K>) {
    forall i, j :: 0 <= i < j < |ks| ==> ks[i] != ks[j]
  }

  /** The members of a set, each once, in some order: what a query without a total order returns. */
  ghost predicate Lists<K(!new)>(listing: seq<K>, keys: set<K>) {
    Distinct(listing) && forall k :: k in listing <==> k in keys
  }

  lemma {:induction false} DistinctCount<K(!new)>(ks: seq<K>, k: K)
    requires Distinct(ks)
    ensures multiset(ks)[k] == if k in ks then 1 else 0
  {
    if ks != [] {
      var n := |ks| - 1;
      DistinctCount(ks[..n], k);
      assert ks == ks[..n] + [ks[n]];
    }
  }

  /** Two listings of a set are permutations of each other. */
  lemma {:induction false} ListingsAgree<K(!new)>(a: seq<K>, b: seq<K>, keys: set<K>)
    requires Lists(a, keys) && Lists(b, keys)
    ensures multiset(a) == multiset(b)
  {
    forall k ensures multiset(a)[k] == multiset(b)[k] {
      DistinctCount(a, k);
      DistinctCount(b, k);
    }
  }

  /** The keys in the order a Python dict would hold them: by first occurrence. */
  function FirstOccurrences<K(==,!new)>(keys: seq<K>): (ks: seq<K>)
    ensures Distinct(ks)
    ensures forall k :: k in ks <==> k in keys
    ensures |ks| <= |keys|
    ensures keys != [] ==> ks != []
  {
    if keys == [] then []
    else
      var before := FirstOccurrences(keys[..|keys| - 1]);
      var k := keys[|keys| - 1];
      if k in before then before else before + [k]
  }

  lemma {:induction false} FirstOccurrencesSnoc<K(!new)>(keys: seq<K>, k: K)
    ensures FirstOccurrences(keys + [k]) == if k in keys then FirstOccurrences(keys) else FirstOccurrences(keys) + [k]
  {
    assert (keys + [k])[..|keys|] == keys;
  }

  /** What the dict entry of `k` has accumulated once all the pairs are in. */
  function GroupSum<K(==,!new)>(keys: seq<K>, vals: seq<real>, k: K): real
    requires |keys| == |vals|
  {
    if keys == [] then 0.0
    else
      var n := |keys| - 1;
      GroupSum(keys[..n], vals[..n], k) + if keys[n] == k then vals[n] else 0.0
  }

  function GroupSums<K(==,!new)>(keys: seq<K>, vals: seq<real>, ks: seq<K>): (r: seq<real>)
    requires |keys| == |vals|
    ensures |r| == |ks|
  {
    seq(|ks|, j requires 0 <= j < |ks| => GroupSum(keys, vals, ks[j]))
  }

  lemma {:induction false} GroupSumSnoc<K(!new)>(keys: seq<K>, vals: seq<real>, key: K, x: real, k: K)
    requires |keys| == |vals|
    ensures GroupSum(keys + [key], vals + [x], k) == GroupSum(keys, vals, k) + if key == k then x else 0.0
  {
    assert (keys + [key])[..|keys|] == keys;
    assert (vals + [x])[..|vals|] == vals;
  }

  lemma {:induction false} GroupSumAbsent<K(!new)>(keys: seq<K>, vals: seq<real>, k: K)
    requires |keys| == |vals| && k !in keys
    ensures GroupSum(keys, vals, k) == 0.0
  {
    if keys != [] {
      GroupSumAbsent(keys[..|keys| - 1], vals[..|vals| - 1], k);
    }
  }

  /** Conservation: over any duplicate-free list of keys that covers the data, the groups add up
      to the ungrouped total. */
  lemma {:induction false} GroupingConserves<K(!new)>(keys: seq<K>, vals: seq<real>, ks: seq<K>)
    requires |keys| == |vals|
    requires Distinct(ks) && forall k :: k in keys ==> k in ks
    ensures Sum(GroupSums(keys, vals, ks)) == Sum(vals)
  {
    var all := GroupSums(keys, vals, ks);
    if keys == [] {
      SumConstant(all, 0.0);
    } else {
      var n := |keys| - 1;
      var rest := GroupSums(keys[..n], vals[..n], ks);
      GroupingConserves(keys[..n], vals[..n], ks);
      assert keys[n] in keys;
      var j :| 0 <= j < |ks| && ks[j] == keys[n];
      assert all == rest[j := rest[j] + vals[n]];
      SumUpdate(rest, j, rest[j] + vals[n]);
    }
  }

  /** Groups of non-negative values are non-negative. */
  lemma {:induction false} GroupSumNonNegative<K(!new)>(keys: seq<K>, vals: seq<real>, k: K)
    requires |keys| == |vals|
    requires forall i :: 0 <= i < |vals| ==> vals[i] >= 0.0
    ensures GroupSum(keys, vals, k) >= 0.0
  {
    if keys != [] {
      GroupSumNonNegative(keys[..|keys| - 1], vals[..|vals| - 1], k);
    }
  }

  lemma {:induction false} GroupSumConstant<K(!new)>(keys: seq<K>, vals: seq<real>, k: K)
    requires |keys| == |vals|
    requires forall i :: 0 <= i < |vals| && keys[i] == k ==> vals[i] == 0.0
    ensures GroupSum(keys, vals, k) == 0.0
  {
    if keys != [] {
      GroupSumConstant(keys[..|keys| - 1], vals[..|vals| - 1], k);
    }
  }

  // ------------------------------------------------------------------ mapping a list

  ghost function Mapped<A, B>(f: A -> B, s: seq<A>): (r: seq<B>)
    ensures |r| == |s|
  {
    seq(|s|, i requires 0 <= i < |s| => f(s[i]))
  }

  lemma {:induction false} MappedConcat<A, B>(f: A -> B, a: seq<A>, b: seq<A>)
    ensures Mapped(f, a + b) == Mapped(f, a) + Mapped(f, b)
  {
  }

  lemma {:induction false} MappedAround<A, B>(f: A -> B, front: seq<A>, x: A, back: seq<A>)
    ensures multiset(Mapped(f, front + [x] + back)) == multiset(Mapped(f, front + back)) + multiset{f(x)}
  {
    MappedConcat(f, front, back);
    MappedConcat(f, front, [x]);
    MappedConcat(f, front + [x], back);
    assert Mapped(f, [x]) == [f(x)];
    hide Mapped;
  }

  lemma {:induction false} WithoutOne<A>(init: seq<A>, x: A, front: seq<A>, back: seq<A>)
    requires multiset(init + [x]) == multiset(front + [x] + back)
    ensures multiset(init) == multiset(front + back)
  {
    var whole := multiset(init + [x]);
    assert whole == multiset(init) + multiset{x};
    assert whole == multiset(front) + multiset{x} + multiset(back);
    assert whole - multiset{x} == multiset(init);
    assert whole - multiset{x} == multiset(front) + multiset(back);
  }

  lemma {:induction false} SplitAt<A>(b: seq<A>, x: A) returns (front: seq<A>, back: seq<A>)
    requires x in multiset(b)
    ensures b == front + [x] + back
  {
    var j :| 0 <= j < |b| && b[j] == x;
    front, back := b[..j], b[j + 1..];
  }

  /** Mapping respects permutations. */
  lemma {:induction false} MappedPermutation<A, B>(f: A -> B, a: seq<A>, b: seq<A>)
    requires multiset(a) == multiset(b)
    ensures multiset(Mapped(f, a)) == multiset(Mapped(f, b))
  {
    hide Mapped;
    if a == [] {
      assert |b| == |multiset(b)| == 0;
    } else {
      var init, x := a[..|a| - 1], a[|a| - 1];
      assert a == init + [x] + [] && a == init + [x] && init + [] == init;
      assert x in multiset(b);
      var front, back := SplitAt(b, x);
      WithoutOne(init, x, front, back);
      MappedPermutation(f, init, front + back);
      MappedAround(f, init, x, []);
      MappedAround(f, front, x, back);
    }
  }
}
