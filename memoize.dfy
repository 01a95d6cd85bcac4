/** `memoize(fn, cacheLimit)`: a least-recently-used cache in front of a function, keyed by the
    serialised argument list. */
module Memoize {
  import opened Js

  /** The limit used when none is given. */
  const DefaultCacheLimit: nat := 100

  /** The cache as the insertion-ordered entries of a JavaScript `Map`: oldest first. */
  type Cache<R> = seq<(string, R)>

  predicate DistinctKeys<R>(c: Cache<R>) {
    forall i, j :: 0 <= i < j < |c| ==> c[i].0 != c[j].0
  }

  function Keys<R>(c: Cache<R>): set<string> {
    set i | 0 <= i < |c| :: c[i].0
  }

  /** `cache.has(k)`, with the position of the entry. */
  function Find<R>(c: Cache<R>, k: string): (r: Option<nat>)
    ensures r.Some? ==> r.value < |c| && c[r.value].0 == k
    ensures r.None? ==> k !in Keys(c)
    decreases |c|
  {
    if |c| == 0 then None
    else if c[|c| - 1].0 == k then Some(|c| - 1)
    else
      var r := Find(c[..|c| - 1], k);
      assert Keys(c) == Keys(c[..|c| - 1]) + {c[|c| - 1].0};
      r
  }

  /** `cache.delete(k)` of the entry at `i`. */
  function Remove<R>(c: Cache<R>, i: nat): Cache<R>
    requires i < |c|
  {
    c[..i] + c[i + 1..]
  }

  /** A hit: `delete` then `set` moves the entry to the most-recent end. */
  function Touch<R>(c: Cache<R>, i: nat): Cache<R>
    requires i < |c|
  {
    Remove(c, i) + [c[i]]
  }

  /** A miss: `set` appends, then the oldest entry goes when the size exceeds the limit and its key
      is truthy. */
  function Insert<R>(c: Cache<R>, k: string, v: R, cacheLimit: nat): Cache<R> {
    var c' := c + [(k, v)];
    if |c'| > cacheLimit && c'[0].0 != "" then c'[1..] else c'
  }

  /** The position in `c` that position `j` of `Touch(c, i)` comes from. */
  function Origin(n: nat, i: nat, j: nat): nat {
    if j < i then j else if j < n - 1 then j + 1 else i
  }

  lemma TouchOrigin<R>(c: Cache<R>, i: nat, j: nat)
    requires i < |c| && j < |c|
    ensures Origin(|c|, i, j) < |c| && Touch(c, i)[j] == c[Origin(|c|, i, j)]
  {
  }

  /** A hit keeps the same entries, puts the hit entry last, and keeps the others in their order. */
  lemma TouchMovesToEnd<R>(c: Cache<R>, i: nat)
    requires i < |c| && DistinctKeys(c)
    ensures |Touch(c, i)| == |c| && Keys(Touch(c, i)) == Keys(c)
    ensures DistinctKeys(Touch(c, i))
    ensures Touch(c, i)[|c| - 1] == c[i]
    ensures forall j :: 0 <= j < i ==> Touch(c, i)[j] == c[j]
    ensures forall j :: i < j < |c| ==> Touch(c, i)[j - 1] == c[j]
  {
    var t := Touch(c, i);
    var n := |c|;
    forall j | 0 <= j < n
      ensures t[j] == c[Origin(n, i, j)]
    {
      TouchOrigin(c, i, j);
    }
    forall k | k in Keys(t)
      ensures k in Keys(c)
    {
      var j :| 0 <= j < |t| && t[j].0 == k;
      assert c[Origin(n, i, j)].0 == k;
    }
    forall k | k in Keys(c)
      ensures k in Keys(t)
    {
      var j :| 0 <= j < n && c[j].0 == k;
      var m := if j < i then j else if j > i then j - 1 else n - 1;
      assert Origin(n, i, m) == j;
      assert t[m].0 == k;
    }
    forall a, b | 0 <= a < b < n
      ensures t[a].0 != t[b].0
    {
      assert Origin(n, i, a) != Origin(n, i, b);
    }
  }

  /** A miss on a cache within its limit leaves it within its limit with distinct keys; the new
      entry is last, and only the oldest entry can be evicted, the others keeping their order. */
  lemma InsertEvictsOldest<R>(c: Cache<R>, k: string, v: R, cacheLimit: nat)
    requires |c| <= cacheLimit
    requires DistinctKeys(c) && k !in Keys(c) && k != ""
    requires forall j :: 0 <= j < |c| ==> c[j].0 != ""
    ensures |Insert(c, k, v, cacheLimit)| <= cacheLimit
    ensures DistinctKeys(Insert(c, k, v, cacheLimit))
    ensures |c| < cacheLimit ==> Insert(c, k, v, cacheLimit) == c + [(k, v)]
    ensures |c| >= cacheLimit ==> Insert(c, k, v, cacheLimit) == (c + [(k, v)])[1..]
  {
    var c' := c + [(k, v)];
    assert c'[0].0 != "" by {
      if |c| > 0 { assert c'[0] == c[0]; }
    }
    forall i, j | 0 <= i < j < |c'|
      ensures c'[i].0 != c'[j].0
    {
      if j == |c| {
        assert c'[i] == c[i];
      }
    }
  }

  /** A function wrapped by `memoize`. `key` stands for `JSON.stringify` of the argument list. */
  class Memoized<A(==,!new), R> {
    const fn: A -> R
    const key: A -> string
    const cacheLimit: nat
    var cache: Cache<R>
    /** The arguments of the cached entries, position for position. */
    ghost var args: seq<A>
    /** The arguments `fn` has been called with, in order. */
    ghost var calls: seq<A>

    ghost predicate Valid()
      reads this
    {
      && |args| == |cache| <= cacheLimit
      && (forall i :: 0 <= i < |cache| ==> cache[i] == (key(args[i]), fn(args[i])))
      && DistinctKeys(cache)
      && (forall a, b :: key(a) == key(b) ==> a == b)
      && (forall a :: key(a) != "")
    }

    /** `key` must be injective and never produce the empty string, as `JSON.stringify` of an
        argument array is. */
    constructor(fn: A -> R, key: A -> string, cacheLimit: nat := DefaultCacheLimit)
      requires forall a, b :: key(a) == key(b) ==> a == b
      requires forall a :: key(a) != ""
      ensures Valid() && this.fn == fn && this.key == key && this.cacheLimit == cacheLimit
      ensures cache == [] && calls == []
    {
      this.fn := fn;
      this.key := key;
      this.cacheLimit := cacheLimit;
      cache := [];
      args := [];
      calls := [];
    }

    /** One call of the memoised function. The result is always `fn(a)`. On a hit `fn` is not called
        and the entry moves to the most-recent end; on a miss `fn` is called once and its result
        stored last, evicting the oldest entry if the limit is exceeded. */
    method Call(a: A) returns (result: R)
      requires Valid()
      modifies this
      ensures Valid()
      ensures result == fn(a)
      ensures key(a) in Keys(old(cache)) ==>
        calls == old(calls) && cache == Touch(old(cache), Find(old(cache), key(a)).value)
      ensures key(a) !in Keys(old(cache)) ==>
        calls == old(calls) + [a] && cache == Insert(old(cache), key(a), fn(a), cacheLimit)
      ensures |cache| > 0 ==> cache[|cache| - 1] == (key(a), fn(a))
    {
      var k := key(a);
      var found := Find(cache, k);
      if found.Some? {
        var i := found.value;
        var value := cache[i].1;
        TouchMovesToEnd(cache, i);
        ghost var a' := args[i];
        assert key(a') == k;
        cache := Remove(cache, i) + [(k, value)];
        args := args[..i] + args[i + 1..] + [a];
        assert |args| == |cache|;
        forall j | 0 <= j < |cache|
          ensures cache[j] == (key(args[j]), fn(args[j]))
        {
          if j < i {
            assert cache[j] == old(cache)[j] && args[j] == old(args)[j];
          } else if j < |cache| - 1 {
            assert cache[j] == old(cache)[j + 1] && args[j] == old(args)[j + 1];
          }
        }
        return value;
      }
      result := fn(a);
      calls := calls + [a];
      InsertEvictsOldest(cache, k, result, cacheLimit);
      cache := cache + [(k, result)];
      args := args + [a];
      if |cache| > cacheLimit {
        var firstKey := cache[0].0;
        if firstKey != "" {
          cache := cache[1..];
          args := args[1..];
        }
      }
    }
  }
}
