/** A stable sort by an integer key, as `Array.prototype.sort` with a comparator `key(a) - key(b)`
    behaves since the language made the sort stable. */
module StableSort {
  predicate SortedBy<T>(xs: seq<T>, key: T -> int) {
    forall i, j :: 0 <= i < j < |xs| ==> key(xs[i]) <= key(xs[j])
  }

  /** Ordered by key and, among equal keys, by `lt`. */
  predicate OrderedByKeyThen<T>(xs: seq<T>, key: T -> int, lt: (T, T) -> bool) {
    forall i, j :: 0 <= i < j < |xs| ==> key(xs[i]) < key(xs[j]) || (key(xs[i]) == key(xs[j]) && lt(xs[i], xs[j]))
  }

  /** Where an element with key `k` goes in a sorted list: after every element with key at most `k`. */
  function Cut<T>(ys: seq<T>, key: T -> int, k: int): (c: nat)
    ensures c <= |ys|
    ensures forall i :: c <= i < |ys| ==> key(ys[i]) > k
    ensures SortedBy(ys, key) ==> forall i :: 0 <= i < c ==> key(ys[i]) <= k
    decreases |ys|
  {
    if |ys| == 0 then 0
    else if key(ys[|ys| - 1]) <= k then |ys|
    else
      var c := Cut(ys[..|ys| - 1], key, k);
      assert SortedBy(ys, key) ==> SortedBy(ys[..|ys| - 1], key);
      c
  }

  function Insert<T>(ys: seq<T>, x: T, key: T -> int): seq<T> {
    var c := Cut(ys, key, key(x));
    ys[..c] + [x] + ys[c..]
  }

  /** Insertion sort, each element inserted after the equal-keyed ones already placed. */
  function SortBy<T>(xs: seq<T>, key: T -> int): (r: seq<T>)
    ensures |r| == |xs|
    decreases |xs|
  {
    if |xs| == 0 then [] else Insert(SortBy(xs[..|xs| - 1], key), xs[|xs| - 1], key)
  }

  /** The sort rearranges its input and nothing more. */
  lemma {:induction false} SortByPermutes<T>(xs: seq<T>, key: T -> int)
    ensures multiset(SortBy(xs, key)) == multiset(xs)
    decreases |xs|
  {
    if |xs| > 0 {
      var pre := xs[..|xs| - 1];
      SortByPermutes(pre, key);
      var s := SortBy(pre, key);
      var c := Cut(s, key, key(xs[|xs| - 1]));
      assert s == s[..c] + s[c..];
      assert xs == pre + [xs[|xs| - 1]];
    }
  }

  /** If the input is ordered pairwise by `lt`, the output is ordered by key and, among equal keys,
      by `lt`: equal keys keep their input order. With `lt` true everywhere this is sortedness. */
  lemma {:induction false} SortByKeepsOrderOfTies<T>(xs: seq<T>, key: T -> int, lt: (T, T) -> bool)
    requires forall i, j :: 0 <= i < j < |xs| ==> lt(xs[i], xs[j])
    ensures OrderedByKeyThen(SortBy(xs, key), key, lt)
    decreases |xs|
  {
    if |xs| > 0 {
      var n := |xs| - 1;
      var pre := xs[..n];
      var z := xs[n];
      forall i, j | 0 <= i < j < |pre|
        ensures lt(pre[i], pre[j])
      {
        assert pre[i] == xs[i] && pre[j] == xs[j];
      }
      SortByKeepsOrderOfTies(pre, key, lt);
      SortByPermutes(pre, key);
      var s := SortBy(pre, key);
      assert SortedBy(s, key);
      var c := Cut(s, key, key(z));
      assert SortBy(xs, key) == s[..c] + [z] + s[c..];
      forall x | x in s
        ensures lt(x, z)
      {
        assert x in multiset(pre);
        var a :| 0 <= a < |pre| && pre[a] == x;
        assert xs[a] == x;
      }
      InsertKeepsOrderOfTies(s, z, c, key, lt);
    }
  }

  /** Inserting `z` at its cut into a list ordered by key-then-`lt`, when every element of the
      list is `lt` below `z`, keeps that ordering. */
  lemma InsertKeepsOrderOfTies<T>(s: seq<T>, z: T, c: nat, key: T -> int, lt: (T, T) -> bool)
    requires c <= |s|
    requires OrderedByKeyThen(s, key, lt)
    requires forall i :: 0 <= i < c ==> key(s[i]) <= key(z) && lt(s[i], z)
    requires forall i :: c <= i < |s| ==> key(s[i]) > key(z)
    ensures OrderedByKeyThen(s[..c] + [z] + s[c..], key, lt)
  {
    var r := s[..c] + [z] + s[c..];
    forall i, j | 0 <= i < j < |r|
      ensures key(r[i]) < key(r[j]) || (key(r[i]) == key(r[j]) && lt(r[i], r[j]))
    {
      if j < c {
        assert r[i] == s[i] && r[j] == s[j];
      } else if j == c {
        assert r[i] == s[i] && r[j] == z;
      } else if i < c {
        assert r[i] == s[i] && r[j] == s[j - 1];
      } else if i == c {
        assert r[i] == z && r[j] == s[j - 1];
      } else {
        assert r[i] == s[i - 1] && r[j] == s[j - 1];
      }
    }
  }

  /** The sort orders by key. */
  lemma SortBySorts<T>(xs: seq<T>, key: T -> int)
    ensures SortedBy(SortBy(xs, key), key)
  {
    SortByKeepsOrderOfTies(xs, key, (a: T, b: T) => true);
  }

  /** Each element paired with a tag, such as its original position. */
  function Untag<T>(xs: seq<(T, nat)>): (r: seq<T>)
    ensures |r| == |xs| && forall i :: 0 <= i < |xs| ==> r[i] == xs[i].0
  {
    seq(|xs|, i requires 0 <= i < |xs| => xs[i].0)
  }

  /** A key on elements, read through their tags. */
  function OnFirst<T(!new)>(key: T -> int): (k: ((T, nat)) -> int)
    ensures forall p: (T, nat) :: k(p) == key(p.0)
  {
    (p: (T, nat)) => key(p.0)
  }

  lemma {:induction false} CutIgnoresTags<T(!new)>(ys: seq<(T, nat)>, key: T -> int, k: int)
    ensures Cut(ys, OnFirst(key), k) == Cut(Untag(ys), key, k)
    decreases |ys|
  {
    if |ys| > 0 {
      assert Untag(ys[..|ys| - 1]) == Untag(ys)[..|ys| - 1];
      CutIgnoresTags(ys[..|ys| - 1], key, k);
    }
  }

  lemma UntagSplice<T(!new)>(s: seq<(T, nat)>, z: (T, nat), c: nat)
    requires c <= |s|
    ensures Untag(s[..c] + [z] + s[c..]) == Untag(s)[..c] + [z.0] + Untag(s)[c..]
  {
  }

  /** Sorting tagged elements by a key of the element alone, then dropping the tags, is sorting
      the elements: the sort only ever compares keys. */
  lemma {:induction false} SortByIgnoresTags<T(!new)>(xs: seq<(T, nat)>, key: T -> int)
    ensures Untag(SortBy(xs, OnFirst(key))) == SortBy(Untag(xs), key)
    decreases |xs|
  {
    if |xs| > 0 {
      var n := |xs| - 1;
      SortByIgnoresTags(xs[..n], key);
      var u := Untag(xs);
      assert Untag(xs[..n]) == u[..n];
      var s := SortBy(xs[..n], OnFirst(key));
      var z := xs[n];
      assert u[n] == z.0;
      assert OnFirst(key)(z) == key(z.0);
      CutIgnoresTags(s, key, key(z.0));
      var c := Cut(s, OnFirst(key), key(z.0));
      assert SortBy(xs, OnFirst(key)) == s[..c] + [z] + s[c..];
      assert SortBy(u, key) == Untag(s)[..c] + [z.0] + Untag(s)[c..];
      UntagSplice(s, z, c);
    }
  }
}
