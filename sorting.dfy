/** Python's stable `sorted(..., key=...)`, with or without `reverse=True`,
    as an insertion sort parameterised by the "may come first" relation. */
module Sorting {

  /** `le` is a total preorder: any two elements compare, and it chains. */
  ghost predicate TotalPreorder<T(!new)>(le: (T, T) -> bool) {
    (forall a, b :: le(a, b) || le(b, a)) &&
    (forall a, b, c :: le(a, b) && le(b, c) ==> le(a, c))
  }

  /** Each element may come before its successor. */
  predicate Sorted<T>(s: seq<T>, le: (T, T) -> bool) {
    forall i :: 0 <= i < |s| - 1 ==> le(s[i], s[i + 1])
  }

  /** Places `x` before the first element it may precede. */
  function Insert<T>(x: T, t: seq<T>, le: (T, T) -> bool): (r: seq<T>)
    ensures multiset(r) == multiset(t) + multiset{x}
    ensures |r| == |t| + 1
  {
    if t == [] || le(x, t[0]) then [x] + t
    else
      assert t == [t[0]] + t[1..];
      [t[0]] + Insert(x, t[1..], le)
  }

  /** The stable sort: earlier elements stay in front of equal later ones
      (`SortStable`). */
  function Sort<T>(s: seq<T>, le: (T, T) -> bool): (r: seq<T>)
    ensures multiset(r) == multiset(s)
    ensures |r| == |s|
  {
    if s == [] then []
    else
      assert s == [s[0]] + s[1..];
      Insert(s[0], Sort(s[1..], le), le)
  }

  lemma {:induction false} InsertSorted<T(!new)>(x: T, t: seq<T>, le: (T, T) -> bool)
    requires TotalPreorder(le) && Sorted(t, le)
    ensures Sorted(Insert(x, t, le), le)
    ensures Insert(x, t, le)[0] == x || (t != [] && Insert(x, t, le)[0] == t[0])
  {
    if t != [] && !le(x, t[0]) {
      assert le(t[0], x);
      InsertSorted(x, t[1..], le);
      var r := Insert(x, t[1..], le);
      assert Sorted(r, le);
      if r[0] != x {
        assert r[0] == t[1];
      }
    }
  }

  /** `Sort` orders its input and is a permutation of it. */
  lemma {:induction false} SortSorted<T(!new)>(s: seq<T>, le: (T, T) -> bool)
    requires TotalPreorder(le)
    ensures Sorted(Sort(s, le), le)
    ensures multiset(Sort(s, le)) == multiset(s)
  {
    if s != [] {
      SortSorted(s[1..], le);
      InsertSorted(s[0], Sort(s[1..], le), le);
    }
  }

  /** The elements of `s` that compare equal to `x` under `le`, in order. */
  function Peers<T>(s: seq<T>, x: T, le: (T, T) -> bool): seq<T>
  {
    if s == [] then []
    else (if le(s[0], x) && le(x, s[0]) then [s[0]] else []) + Peers(s[1..], x, le)
  }

  /** Peers of `x` in a list with a first element. */
  lemma PeersCons<T>(a: T, s: seq<T>, x: T, le: (T, T) -> bool)
    ensures Peers([a] + s, x, le) == (if le(a, x) && le(x, a) then [a] else []) + Peers(s, x, le)
  {
    assert ([a] + s)[0] == a && ([a] + s)[1..] == s;
  }

  /** Inserting `y` puts it in front of every element that compares equal to it. */
  lemma {:induction false} InsertPeers<T(!new)>(y: T, t: seq<T>, x: T, le: (T, T) -> bool)
    requires TotalPreorder(le)
    ensures Peers(Insert(y, t, le), x, le) == (if le(y, x) && le(x, y) then [y] else []) + Peers(t, x, le)
  {
    if t == [] || le(y, t[0]) {
      assert Insert(y, t, le) == [y] + t;
      PeersCons(y, t, x, le);
    } else {
      var rest := Insert(y, t[1..], le);
      assert Insert(y, t, le) == [t[0]] + rest;
      assert t == [t[0]] + t[1..];
      InsertPeers(y, t[1..], x, le);
      PeersCons(t[0], rest, x, le);
      PeersCons(t[0], t[1..], x, le);
      var head: seq<T> := if le(y, x) && le(x, y) then [y] else [];
      var first: seq<T> := if le(t[0], x) && le(x, t[0]) then [t[0]] else [];
      // `y` does not precede `t[0]`, so they are not both equal to `x`.
      assert head == [] || first == [];
      assert first + (head + Peers(t[1..], x, le)) == head + (first + Peers(t[1..], x, le));
    }
  }

  /** `Sort` is stable: the elements that compare equal to any `x` come out
      in the order they went in. */
  lemma {:induction false} SortStable<T(!new)>(s: seq<T>, le: (T, T) -> bool, x: T)
    requires TotalPreorder(le)
    ensures Peers(Sort(s, le), x, le) == Peers(s, x, le)
  {
    if s != [] {
      SortStable(s[1..], le, x);
      InsertPeers(s[0], Sort(s[1..], le), x, le);
    }
  }

  /** The first peer of `x` is the first element of `s` that compares equal to `x`. */
  lemma {:induction false} PeersFirst<T>(s: seq<T>, x: T, le: (T, T) -> bool) returns (i: nat)
    requires Peers(s, x, le) != []
    ensures i < |s| && Peers(s, x, le)[0] == s[i] && le(s[i], x) && le(x, s[i])
    ensures forall k :: 0 <= k < i ==> !(le(s[k], x) && le(x, s[k]))
  {
    if le(s[0], x) && le(x, s[0]) {
      i := 0;
    } else {
      var j := PeersFirst(s[1..], x, le);
      i := j + 1;
    }
  }

  /** The head of the sorted sequence is the first element of the input
      that may precede every element: no earlier element compares equal to it. */
  lemma SortHead<T(!new)>(s: seq<T>, le: (T, T) -> bool) returns (i: nat)
    requires TotalPreorder(le) && s != []
    ensures i < |s| && Sort(s, le)[0] == s[i]
    ensures forall k :: 0 <= k < |s| ==> le(s[i], s[k])
    ensures forall k :: 0 <= k < i ==> !le(s[k], s[i])
  {
    var r := Sort(s, le);
    var best := r[0];
    SortSorted(s, le);
    SortStable(s, le, best);
    assert Peers(r, best, le)[0] == best;
    i := PeersFirst(s, best, le);
    forall k | 0 <= k < |s|
      ensures le(best, s[k])
    {
      assert s[k] in multiset(r);
      var j :| 0 <= j < |r| && r[j] == s[k];
      SortedPairwise(r, le, 0, j);
    }
  }

  /** In a sorted sequence every earlier element may precede every later one. */
  lemma {:induction false} SortedPairwise<T(!new)>(s: seq<T>, le: (T, T) -> bool, i: int, j: int)
    requires TotalPreorder(le) && Sorted(s, le)
    requires 0 <= i <= j < |s|
    ensures i == j || le(s[i], s[j])
    decreases j - i
  {
    if i < j - 1 {
      SortedPairwise(s, le, i, j - 1);
      assert le(s[j - 1], s[j]);
    }
  }

  /** Code-point lexicographic order, as Python compares `str` values. */
  predicate StrLe(a: string, b: string)
    decreases |a|
  {
    a == [] || (b != [] && (a[0] < b[0] || (a[0] == b[0] && StrLe(a[1..], b[1..]))))
  }

  lemma {:induction false} StrLeTotal(a: string, b: string)
    ensures StrLe(a, b) || StrLe(b, a)
    decreases |a|
  {
    if a != [] && b != [] && a[0] == b[0] {
      StrLeTotal(a[1..], b[1..]);
    }
  }

  lemma {:induction false} StrLeTrans(a: string, b: string, c: string)
    requires StrLe(a, b) && StrLe(b, c)
    ensures StrLe(a, c)
    decreases |a|
  {
    if a != [] && b != [] && c != [] && a[0] == b[0] && b[0] == c[0] {
      StrLeTrans(a[1..], b[1..], c[1..]);
    }
  }

  lemma StrLeOrder()
    ensures TotalPreorder((a: string, b: string) => StrLe(a, b))
  {
    forall a: string, b: string
      ensures StrLe(a, b) || StrLe(b, a)
    {
      StrLeTotal(a, b);
    }
    forall a: string, b: string, c: string | StrLe(a, b) && StrLe(b, c)
      ensures StrLe(a, c)
    {
      StrLeTrans(a, b, c);
    }
  }
}
