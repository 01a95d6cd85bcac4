/** The ascending order of the band keys present in an index. */
module BandOrder {
  /** The number of priority bands. */
  const BandCount: nat := 4

  /** The members of `keys` from `k` up to the last band, ascending. */
  function KeysFrom(keys: set<int>, k: nat): seq<int>
    decreases BandCount - k
  {
    if k >= BandCount then []
    else (if k in keys then [k] else []) + KeysFrom(keys, k + 1)
  }

  /** `ks` lists the members of `keys` from `k` below `BandCount`, ascending. */
  predicate AscendingMembers(keys: set<int>, k: nat, ks: seq<int>) {
    && (forall i :: 0 <= i < |ks| ==> ks[i] in keys && k <= ks[i] < BandCount)
    && (forall i, j :: 0 <= i < j < |ks| ==> ks[i] < ks[j])
    && (forall b :: k <= b < BandCount && b in keys ==> b in ks)
  }

  /** `KeysFrom` lists exactly the members from `k` on, ascending. */
  lemma KeysFromFacts(keys: set<int>, k: nat)
    ensures AscendingMembers(keys, k, KeysFrom(keys, k))
  {
    KeysFromMembers(keys, k);
    KeysFromAscending(keys, k);
    KeysFromCovers(keys, k);
  }

  lemma {:induction false} KeysFromMembers(keys: set<int>, k: nat)
    ensures forall i :: 0 <= i < |KeysFrom(keys, k)| ==> KeysFrom(keys, k)[i] in keys && k <= KeysFrom(keys, k)[i] < BandCount
    decreases BandCount - k
  {
    if k < BandCount {
      KeysFromMembers(keys, k + 1);
      var rest := KeysFrom(keys, k + 1);
      var ks := (if k in keys then [k] else []) + rest;
      assert KeysFrom(keys, k) == ks;
      forall i | 0 <= i < |ks|
        ensures ks[i] in keys && k <= ks[i] < BandCount
      {
        if k in keys && i > 0 {
          assert ks[i] == rest[i - 1];
        } else if k !in keys {
          assert ks[i] == rest[i];
        }
      }
    }
  }

  lemma {:induction false} KeysFromAscending(keys: set<int>, k: nat)
    ensures forall i, j :: 0 <= i < j < |KeysFrom(keys, k)| ==> KeysFrom(keys, k)[i] < KeysFrom(keys, k)[j]
    decreases BandCount - k
  {
    if k < BandCount {
      KeysFromAscending(keys, k + 1);
      KeysFromMembers(keys, k + 1);
      var rest := KeysFrom(keys, k + 1);
      var ks := (if k in keys then [k] else []) + rest;
      assert KeysFrom(keys, k) == ks;
      forall i, j | 0 <= i < j < |ks|
        ensures ks[i] < ks[j]
      {
        if k in keys {
          assert ks[j] == rest[j - 1];
          if i > 0 {
            assert ks[i] == rest[i - 1];
          }
        } else {
          assert ks[i] == rest[i] && ks[j] == rest[j];
        }
      }
    }
  }

  lemma {:induction false} KeysFromCovers(keys: set<int>, k: nat)
    ensures forall b :: k <= b < BandCount && b in keys ==> b in KeysFrom(keys, k)
    decreases BandCount - k
  {
    if k < BandCount {
      KeysFromCovers(keys, k + 1);
      var rest := KeysFrom(keys, k + 1);
      assert KeysFrom(keys, k) == (if k in keys then [k] else []) + rest;
    }
  }

  lemma {:induction false} KeysAtLeastPositions(ks: seq<int>)
    requires forall i, j :: 0 <= i < j < |ks| ==> ks[i] < ks[j]
    requires forall i :: 0 <= i < |ks| ==> 0 <= ks[i]
    ensures forall p :: 0 <= p < |ks| ==> p <= ks[p]
    decreases |ks|
  {
    if |ks| > 0 {
      var pre := ks[..|ks| - 1];
      KeysAtLeastPositions(pre);
      assert forall p :: 0 <= p < |pre| ==> pre[p] == ks[p];
      if |ks| > 1 {
        assert ks[|ks| - 2] < ks[|ks| - 1];
      }
    }
  }

  /** A strictly increasing list of `n` naturals below `n` is `0, 1, ..., n - 1`. */
  lemma KeysArePositions(ks: seq<int>, n: nat, p: nat)
    requires |ks| == n && p < n
    requires forall i, j :: 0 <= i < j < |ks| ==> ks[i] < ks[j]
    requires forall i :: 0 <= i < |ks| ==> 0 <= ks[i] < n
    ensures ks[p] == p
  {
    KeysAtLeastPositions(ks);
    KeysAtMostPositions(ks, n);
  }

  lemma {:induction false} KeysAtMostPositions(ks: seq<int>, n: nat)
    requires |ks| == n
    requires forall i, j :: 0 <= i < j < |ks| ==> ks[i] < ks[j]
    requires forall i :: 0 <= i < |ks| ==> ks[i] < n
    ensures forall p :: 0 <= p < |ks| ==> ks[p] <= p
    decreases |ks|
  {
    if |ks| > 0 {
      var pre := ks[..|ks| - 1];
      forall i | 0 <= i < |pre|
        ensures pre[i] < n - 1
      {
        assert pre[i] == ks[i] < ks[|ks| - 1] < n;
      }
      KeysAtMostPositions(pre, n - 1);
      assert forall p :: 0 <= p < |pre| ==> pre[p] == ks[p];
    }
  }

  /** Positions equal keys exactly when the keys present are `0` to `n - 1`. */
  lemma PositionsAreKeysIff(keys: set<int>)
    requires forall b :: b in keys ==> 0 <= b < BandCount
    ensures (forall p :: 0 <= p < |KeysFrom(keys, 0)| ==> KeysFrom(keys, 0)[p] == p) <==>
            (forall b :: b in keys <==> 0 <= b < |KeysFrom(keys, 0)|)
  {
    var ks := KeysFrom(keys, 0);
    KeysFromFacts(keys, 0);
    assert AscendingMembers(keys, 0, ks);
    if forall p :: 0 <= p < |ks| ==> ks[p] == p {
      forall b | 0 <= b < |ks|
        ensures b in keys
      {
        assert ks[b] == b;
      }
      forall b | b in keys
        ensures 0 <= b < |ks|
      {
        var p :| 0 <= p < |ks| && ks[p] == b;
      }
    }
    if forall b :: b in keys <==> 0 <= b < |ks| {
      forall p | 0 <= p < |ks|
        ensures ks[p] == p
      {
        KeysArePositions(ks, |ks|, p);
      }
    }
  }
}
