/** `collections.defaultdict(float)` used as a running total per key: an
    association list in insertion order, with `b[k] += x` as `Add`. */
module Buckets {
  import opened Sorting

  type Bucket<K> = seq<(K, real)>

  /** `b[k] += x`: the existing entry grows in place; a new key is appended
      with `0.0 + x`. */
  function Add<K(==)>(b: Bucket<K>, k: K, x: real): (r: Bucket<K>)
  {
    if b == [] then [(k, x)]
    else if b[0].0 == k then [(k, b[0].1 + x)] + b[1..]
    else [b[0]] + Add(b[1..], k, x)
  }

  function Keys<K>(b: Bucket<K>): (r: seq<K>)
    ensures |r| == |b| && forall i :: 0 <= i < |b| ==> r[i] == b[i].0
  {
    seq(|b|, i requires 0 <= i < |b| => b[i].0)
  }

  predicate Distinct<K(==)>(s: seq<K>) {
    forall i, j :: 0 <= i < j < |s| ==> s[i] != s[j]
  }

  /** The sum of every amount filed under `k`. */
  function Lookup<K(==)>(b: Bucket<K>, k: K): real {
    if b == [] then 0.0 else (if b[0].0 == k then b[0].1 else 0.0) + Lookup(b[1..], k)
  }

  /** The sum of every amount. */
  function Sum<K>(b: Bucket<K>): real {
    if b == [] then 0.0 else b[0].1 + Sum(b[1..])
  }

  /** Filing every pair in order, from empty: the dictionary after the loop. */
  function Grouped<K(==)>(p: Bucket<K>): Bucket<K> {
    if p == [] then [] else Add(Grouped(p[..|p| - 1]), p[|p| - 1].0, p[|p| - 1].1)
  }

  // ---- one addition ----

  /** Adding `x` under `k` adds `x` to the total of `k` and to no other. */
  lemma {:induction false} AddLookup<K>(b: Bucket<K>, k: K, x: real, j: K)
    ensures Lookup(Add(b, k, x), j) == Lookup(b, j) + (if j == k then x else 0.0)
  {
    if b != [] && b[0].0 != k {
      AddLookup(b[1..], k, x, j);
      assert Add(b, k, x)[1..] == Add(b[1..], k, x);
    } else if b != [] {
      assert Add(b, k, x)[1..] == b[1..];
    }
  }

  lemma {:induction false} AddSum<K>(b: Bucket<K>, k: K, x: real)
    ensures Sum(Add(b, k, x)) == Sum(b) + x
  {
    if b != [] && b[0].0 != k {
      AddSum(b[1..], k, x);
      assert Add(b, k, x)[1..] == Add(b[1..], k, x);
    } else if b != [] {
      assert Add(b, k, x)[1..] == b[1..];
    }
  }

  /** The keys after an addition: the old keys, with `k` appended when new. */
  lemma {:induction false} AddKeys<K>(b: Bucket<K>, k: K, x: real)
    ensures Keys(Add(b, k, x)) == if k in Keys(b) then Keys(b) else Keys(b) + [k]
  {
    if b != [] && b[0].0 != k {
      AddKeys(b[1..], k, x);
      assert Add(b, k, x)[1..] == Add(b[1..], k, x);
      assert Keys(b) == [b[0].0] + Keys(b[1..]);
      assert Keys(Add(b, k, x)) == [b[0].0] + Keys(Add(b[1..], k, x));
    } else if b != [] {
      assert Keys(Add(b, k, x)) == Keys(b);
    }
  }

  lemma AddDistinct<K>(b: Bucket<K>, k: K, x: real)
    requires Distinct(Keys(b))
    ensures Distinct(Keys(Add(b, k, x)))
  {
    AddKeys(b, k, x);
  }

  // ---- appending to a list of pairs ----

  lemma {:induction false} LookupAppend<K>(p: Bucket<K>, x: (K, real), j: K)
    ensures Lookup(p + [x], j) == Lookup(p, j) + (if x.0 == j then x.1 else 0.0)
  {
    if p != [] {
      assert (p + [x])[1..] == p[1..] + [x];
      LookupAppend(p[1..], x, j);
    }
  }

  lemma {:induction false} SumAppend<K>(p: Bucket<K>, x: (K, real))
    ensures Sum(p + [x]) == Sum(p) + x.1
  {
    if p != [] {
      assert (p + [x])[1..] == p[1..] + [x];
      SumAppend(p[1..], x);
    }
  }

  /** `Grouped` of a longer list is one more addition. */
  lemma GroupedAppend<K>(p: Bucket<K>, x: (K, real))
    ensures Grouped(p + [x]) == Add(Grouped(p), x.0, x.1)
  {
    assert (p + [x])[..|p + [x]| - 1] == p;
  }

  // ---- the dictionary after the loop ----

  /** Each key's total is the sum of the amounts filed under it. */
  lemma {:induction false} GroupedLookup<K>(p: Bucket<K>, j: K)
    ensures Lookup(Grouped(p), j) == Lookup(p, j)
    decreases |p|
  {
    if p != [] {
      var q := p[..|p| - 1];
      var x := p[|p| - 1];
      assert p == q + [x];
      GroupedLookup(q, j);
      AddLookup(Grouped(q), x.0, x.1, j);
      LookupAppend(q, x, j);
    }
  }

  /** The totals together are the sum of every amount. */
  lemma {:induction false} GroupedSum<K>(p: Bucket<K>)
    ensures Sum(Grouped(p)) == Sum(p)
    decreases |p|
  {
    if p != [] {
      var q := p[..|p| - 1];
      var x := p[|p| - 1];
      assert p == q + [x];
      GroupedSum(q);
      AddSum(Grouped(q), x.0, x.1);
      SumAppend(q, x);
    }
  }

  /** Every key appears once, and the keys are exactly those filed. */
  lemma {:induction false} GroupedKeys<K>(p: Bucket<K>)
    ensures Distinct(Keys(Grouped(p)))
    ensures forall j :: j in Keys(Grouped(p)) <==> j in Keys(p)
    decreases |p|
  {
    if p != [] {
      var q := p[..|p| - 1];
      var x := p[|p| - 1];
      assert p == q + [x];
      GroupedKeys(q);
      AddKeys(Grouped(q), x.0, x.1);
      assert Keys(p) == Keys(q) + [x.0];
    }
  }

  /** With distinct keys, the total of a key is the amount beside it. */
  lemma {:induction false} LookupDistinct<K>(b: Bucket<K>, i: nat)
    requires Distinct(Keys(b)) && i < |b|
    ensures Lookup(b, b[i].0) == b[i].1
  {
    if i == 0 {
      LookupAbsent(b[1..], b[0].0);
    } else {
      assert Distinct(Keys(b[1..]));
      LookupDistinct(b[1..], i - 1);
    }
  }

  lemma {:induction false} LookupAbsent<K>(b: Bucket<K>, k: K)
    requires k !in Keys(b)
    ensures Lookup(b, k) == 0.0
  {
    if b != [] {
      assert Keys(b[1..]) == Keys(b)[1..];
      LookupAbsent(b[1..], k);
    }
  }

  /** With no negative amount, every total is between zero and the sum. */
  lemma {:induction false} LookupBounds<K>(b: Bucket<K>, k: K)
    requires forall i :: 0 <= i < |b| ==> b[i].1 >= 0.0
    ensures 0.0 <= Lookup(b, k) <= Sum(b)
  {
    if b != [] {
      LookupBounds(b[1..], k);
    }
  }

  // ---- sorting the items ----

  /** Items that are a permutation of each other have the same keys. */
  lemma KeysOfPermutation<K>(a: Bucket<K>, b: Bucket<K>)
    requires multiset(a) == multiset(b)
    ensures forall j :: j in Keys(a) <==> j in Keys(b)
  {
    forall j | j in Keys(a)
      ensures j in Keys(b)
    {
      KeyWitness(a, b, j);
    }
    forall j | j in Keys(b)
      ensures j in Keys(a)
    {
      KeyWitness(b, a, j);
    }
  }

  lemma KeyWitness<K>(a: Bucket<K>, b: Bucket<K>, j: K)
    requires multiset(a) == multiset(b) && j in Keys(a)
    ensures j in Keys(b)
  {
    var i :| 0 <= i < |a| && Keys(a)[i] == j;
    assert a[i] in multiset(b);
    var k :| 0 <= k < |b| && b[k] == a[i];
    assert Keys(b)[k] == j;
  }

  lemma ConsDistinct<K>(a: K, r: seq<K>)
    requires a !in r && Distinct(r)
    ensures Distinct([a] + r)
  {
    var s := [a] + r;
    forall i, j | 0 <= i < j < |s|
      ensures s[i] != s[j]
    {
      assert s[j] == r[j - 1];
      if i > 0 {
        assert s[i] == r[i - 1];
      }
    }
  }

  lemma {:induction false} InsertDistinct<K>(x: (K, real), t: Bucket<K>, le: ((K, real), (K, real)) -> bool)
    requires Distinct(Keys(t)) && x.0 !in Keys(t)
    ensures Distinct(Keys(Insert(x, t, le)))
  {
    if t != [] && !le(x, t[0]) {
      assert Keys(t) == [t[0].0] + Keys(t[1..]);
      assert Distinct(Keys(t[1..]));
      InsertDistinct(x, t[1..], le);
      KeysOfPermutation(Insert(x, t[1..], le), t[1..] + [x]);
      assert Keys(t[1..] + [x]) == Keys(t[1..]) + [x.0];
      var r := Keys(Insert(x, t[1..], le));
      assert Keys(Insert(x, t, le)) == [t[0].0] + r;
      ConsDistinct(t[0].0, r);
    } else {
      assert Keys(Insert(x, t, le)) == [x.0] + Keys(t);
      ConsDistinct(x.0, Keys(t));
    }
  }

  /** Sorting the items keeps the keys, each once. */
  lemma {:induction false} SortKeys<K>(b: Bucket<K>, le: ((K, real), (K, real)) -> bool)
    ensures forall j :: j in Keys(Sort(b, le)) <==> j in Keys(b)
    ensures Distinct(Keys(b)) ==> Distinct(Keys(Sort(b, le)))
  {
    KeysOfPermutation(Sort(b, le), b);
    if b != [] {
      SortKeys(b[1..], le);
      assert Keys(b) == [b[0].0] + Keys(b[1..]);
      if Distinct(Keys(b)) {
        assert Distinct(Keys(b[1..]));
        InsertDistinct(b[0], Sort(b[1..], le), le);
      }
    }
  }

  /** Every sorted item is an item of the dictionary, with its total. */
  lemma SortedEntry<K>(b: Bucket<K>, le: ((K, real), (K, real)) -> bool, i: nat)
    requires Distinct(Keys(b)) && i < |Sort(b, le)|
    ensures Sort(b, le)[i] in b
    ensures Lookup(b, Sort(b, le)[i].0) == Sort(b, le)[i].1
  {
    var x := Sort(b, le)[i];
    assert x in multiset(Sort(b, le));
    assert x in multiset(b);
    var j :| 0 <= j < |b| && b[j] == x;
    LookupDistinct(b, j);
  }
}
