/** The search manager: one worker per search-index bucket, a search fanned out to all workers,
    and their replies slotted by worker index and turned back into scripts. */
module SearchManagers {
  import opened Js
  import opened Records
  import opened ChunkBands
  import opened SearchWorkers
  import SecMaster
  import SearchStringIndexing
  import opened BandOrder

  datatype ManagerState = INIT | READY

  /** The `{ payload, index }` of the `init` message a spawned worker receives. */
  datatype WorkerInit = WorkerInit(payload: seq<SearchEntry>, index: nat)

  /** Buckets are keyed by band number, as the search-string index builds them. */
  predicate BandKeyed(idx: SearchStringIndex) {
    forall k :: k in idx ==> 0 <= k < BandCount
  }

  /** The order `Object.values` enumerates the buckets in: integer keys ascending. */
  function BandKeys(idx: SearchStringIndex): seq<int> {
    KeysFrom(idx.Keys, 0)
  }

  /** Every position holds a distinct key of the index, positions never outrun keys, and every
      key of a band-keyed index has a position. */
  lemma BandKeysEnumerateIndex(idx: SearchStringIndex)
    requires BandKeyed(idx)
    ensures var ks := BandKeys(idx);
      && (forall p :: 0 <= p < |ks| ==> ks[p] in idx && p <= ks[p] < BandCount)
      && (forall p, q :: 0 <= p < q < |ks| ==> ks[p] < ks[q])
      && (forall b :: b in idx ==> b in ks)
  {
    var ks := BandKeys(idx);
    KeysFromFacts(idx.Keys, 0);
    KeysAtLeastPositions(ks);
  }

  /** `Object.values(chunks)`. */
  function Buckets(idx: SearchStringIndex): (bs: seq<seq<SearchEntry>>)
    ensures |bs| == |BandKeys(idx)|
  {
    var ks := BandKeys(idx);
    seq(|ks|, p requires 0 <= p < |ks| => idx[ks[p]])
  }

  /** The `init` messages `initialize` sends: the bucket at position `p` with index `p`. */
  function Inits(idx: SearchStringIndex): (ws: seq<WorkerInit>)
    ensures |ws| == |BandKeys(idx)|
  {
    var bs := Buckets(idx);
    seq(|bs|, p requires 0 <= p < |bs| => WorkerInit(bs[p], p))
  }

  /** The intended `init` messages: each bucket with its band key as the index. */
  function InitsByBand(idx: SearchStringIndex): (ws: seq<WorkerInit>)
    ensures |ws| == |BandKeys(idx)|
  {
    var ks := BandKeys(idx);
    seq(|ks|, p requires 0 <= p < |ks| => WorkerInit(idx[ks[p]], ks[p]))
  }

  /** Each worker receives its bucket in key order and its position as the index, which is never
      above the bucket's band. */
  lemma WorkersGetPositions(idx: SearchStringIndex)
    requires BandKeyed(idx)
    ensures forall p :: 0 <= p < |Inits(idx)| ==>
      Inits(idx)[p] == WorkerInit(idx[BandKeys(idx)[p]], p) && p <= BandKeys(idx)[p]
  {
    BandKeysEnumerateIndex(idx);
  }

  /** Every worker's index is its bucket's band exactly when the bands present are `0` to `n - 1`. */
  lemma PositionIsBandIff(idx: SearchStringIndex)
    requires BandKeyed(idx)
    ensures (forall p :: 0 <= p < |Inits(idx)| ==> Inits(idx)[p].index == BandKeys(idx)[p]) <==>
            (forall b :: b in idx <==> 0 <= b < |Inits(idx)|)
  {
    PositionsAreKeysIff(idx.Keys);
  }

  /** No record of `data` is within `r`: the selection is empty. */
  lemma NothingWithin(data: seq<SearchEntry>, r: SubRange)
    requires forall e :: e in data ==> !Within(e, r)
    ensures Select(data, r) == []
  {
    if Select(data, r) != [] {
      var e := Select(data, r)[0];
      SelectMembers(data, r, e);
    }
  }

  /** As written, a missing band shifts the workers after it: with only bands 0 and 3 present,
      band 3's bucket goes to the worker with index 1, which splits it by band 1's range; when
      the bucket is large and its priorities are band 3's, that worker holds no records at all
      and no underlying can be found. */
  lemma MissingBandShiftsWorker(idx: SearchStringIndex)
    requires idx.Keys == {0, 3}
    requires |idx[3]| > MaxFuseChunkSize
    requires forall e :: e in idx[3] ==> e.searchPriority.Some? && InBand(WorkerChunkFour, e.searchPriority.value)
    ensures |Inits(idx)| == 2 && Inits(idx)[1] == WorkerInit(idx[3], 1)
    ensures ChunksSpec(idx[3], 1) == [None, None]
  {
    assert 1 !in idx && 2 !in idx;
    assert BandKeys(idx) == [0, 3];
    var rs := SubRanges(WorkerChunkTwo);
    assert rs[0] == SubRange(25001, 75001, 0) && rs[1] == SubRange(75001, 125001, 1);
    NothingWithin(idx[3], rs[0]);
    NothingWithin(idx[3], rs[1]);
  }

  /** With each worker given its band key, every worker's index has a band, and a record of a
      built index whose priority is a real one (between 1 and 199999) is searched by its worker. */
  lemma ByBandWorkersSearchTheirRecords(idx: SearchStringIndex, p: nat, e: SearchEntry)
    requires SearchStringIndexing.WellFormed(idx)
    requires p < |InitsByBand(idx)| && e in InitsByBand(idx)[p].payload
    requires e.searchPriority.Some? && 1 <= e.searchPriority.value <= 199999
    ensures var w := InitsByBand(idx)[p];
      && w.index < |WorkerChunkMeta|
      && exists c :: 0 <= c < |ChunksSpec(w.payload, w.index)| && ChunksSpec(w.payload, w.index)[c].Some? &&
                     e in ChunksSpec(w.payload, w.index)[c].value
  {
    var w := InitsByBand(idx)[p];
    var ks := BandKeys(idx);
    assert w.index == ks[p] && w.payload == idx[ks[p]];
    assert GetChunkIndex(e.searchPriority) == ks[p];
    ChunkIndexAgreesWithMeta(e.searchPriority.value);
    InBandRecordIsSearched(w.payload, w.index, e);
  }

  /** `{ ...script }`: spreading an undefined result gives the empty object. */
  function Spread(o: Option<SecMaster.Script>): SecMaster.Script {
    if o.Some? then o.value else map[]
  }

  /** The hits of every present slot, slot by slot. */
  function Items(slots: seq<Option<seq<Hit>>>): seq<Hit>
    decreases |slots|
  {
    if |slots| == 0 then []
    else
      var last := slots[|slots| - 1];
      Items(slots[..|slots| - 1]) + (if last.Some? then last.value else [])
  }

  lemma {:induction false} ItemsAppend(a: seq<Option<seq<Hit>>>, b: seq<Option<seq<Hit>>>)
    ensures Items(a + b) == Items(a) + Items(b)
    decreases |b|
  {
    if |b| == 0 {
      assert a + b == a;
    } else {
      var m := |b| - 1;
      ItemsAppend(a, b[..m]);
      assert (a + b)[..|a + b| - 1] == a + b[..m];
    }
  }

  /** A hit's full record spread, `{}` when there is none (or when its decode throws). */
  function Record(md: MasterData, h: Hit): SecMaster.Script
    requires WellShaped(md)
  {
    var script := SecMaster.GetScriptByScriptIdIndexValue(md, h.obj.data, []);
    if script.Done? then Spread(script.value) else map[]
  }

  /** `_flattenResult`'s decoding: each hit's location decoded to its full record and spread, in
      order; a decode that throws ends the whole call. */
  function Enrich(md: MasterData, hits: seq<Hit>): Outcome<seq<SecMaster.Script>>
    requires WellShaped(md)
    decreases |hits|
  {
    if |hits| == 0 then Done([])
    else
      var pre := Enrich(md, hits[..|hits| - 1]);
      var script := SecMaster.GetScriptByScriptIdIndexValue(md, hits[|hits| - 1].obj.data, []);
      if pre.Crash? || script.Crash? then Crash else Done(pre.value + [Record(md, hits[|hits| - 1])])
  }

  /** One more hit: its decode is spread onto the list, or its throw ends the call. */
  lemma EnrichAppend(md: MasterData, hits: seq<Hit>, h: Hit)
    requires WellShaped(md)
    ensures Enrich(md, hits + [h]) ==
      if Enrich(md, hits).Crash? || SecMaster.GetScriptByScriptIdIndexValue(md, h.obj.data, []).Crash? then Crash
      else Done(Enrich(md, hits).value + [Record(md, h)])
  {
    assert (hits + [h])[..|hits|] == hits;
  }

  /** Once a decode has thrown, decoding more hits cannot undo it. */
  lemma {:induction false} EnrichCrashSticks(md: MasterData, hits: seq<Hit>, more: seq<Hit>)
    requires WellShaped(md) && Enrich(md, hits).Crash?
    ensures Enrich(md, hits + more).Crash?
    decreases |more|
  {
    if |more| > 0 {
      var m := |more| - 1;
      EnrichCrashSticks(md, hits, more[..m]);
      assert hits + more == (hits + more[..m]) + [more[m]];
      EnrichAppend(md, hits + more[..m], more[m]);
    } else {
      assert hits + more == hits;
    }
  }

  /** The enriched list throws exactly when some hit's location does not resolve; otherwise it has
      one script per hit, the hit's full record or `{}` when there is none. */
  lemma EnrichFacts(md: MasterData, hits: seq<Hit>)
    requires WellShaped(md)
    ensures Enrich(md, hits).Crash? <==>
      exists i :: 0 <= i < |hits| && !SecMaster.Resolvable(md, hits[i].obj.data)
    ensures Enrich(md, hits).Done? ==>
      && |Enrich(md, hits).value| == |hits|
      && forall i :: 0 <= i < |hits| ==>
           Enrich(md, hits).value[i] == Record(md, hits[i])
  {
    EnrichCrashIff(md, hits);
    EnrichDone(md, hits);
  }

  /** A hit's decode throws exactly when its location does not resolve. */
  lemma DecodeCrashIff(md: MasterData, h: Hit)
    requires WellShaped(md)
    ensures SecMaster.GetScriptByScriptIdIndexValue(md, h.obj.data, []).Crash? <==> !SecMaster.Resolvable(md, h.obj.data)
  {
    SecMaster.DecodeDispatchesOnKind(md, h.obj.data, []);
  }

  lemma EnrichCrashIff(md: MasterData, hits: seq<Hit>)
    requires WellShaped(md)
    ensures Enrich(md, hits).Crash? <==>
      exists i :: 0 <= i < |hits| && !SecMaster.Resolvable(md, hits[i].obj.data)
  {
    if Enrich(md, hits).Crash? {
      var i := CrashHasCause(md, hits);
    }
    if exists i :: 0 <= i < |hits| && !SecMaster.Resolvable(md, hits[i].obj.data) {
      var i :| 0 <= i < |hits| && !SecMaster.Resolvable(md, hits[i].obj.data);
      CrashAtHit(md, hits, i);
    }
  }

  /** A throw has a cause: some hit whose location does not resolve. */
  lemma {:induction false} CrashHasCause(md: MasterData, hits: seq<Hit>) returns (i: nat)
    requires WellShaped(md) && Enrich(md, hits).Crash?
    ensures i < |hits| && !SecMaster.Resolvable(md, hits[i].obj.data)
    decreases |hits|
  {
    var pre := hits[..|hits| - 1];
    DecodeCrashIff(md, hits[|hits| - 1]);
    if Enrich(md, pre).Crash? {
      i := CrashHasCause(md, pre);
      assert hits[i] == pre[i];
    } else {
      i := |hits| - 1;
    }
  }

  /** A hit whose location does not resolve makes the whole call throw. */
  lemma CrashAtHit(md: MasterData, hits: seq<Hit>, i: nat)
    requires WellShaped(md) && i < |hits| && !SecMaster.Resolvable(md, hits[i].obj.data)
    ensures Enrich(md, hits).Crash?
  {
    var pre, h, post := hits[..i], hits[i], hits[i + 1..];
    CrashOnUnresolved(md, pre, h);
    assert pre + [h] + post == hits;
    CrashExtends(md, pre + [h], post, hits);
  }

  lemma CrashOnUnresolved(md: MasterData, pre: seq<Hit>, h: Hit)
    requires WellShaped(md) && !SecMaster.Resolvable(md, h.obj.data)
    ensures Enrich(md, pre + [h]).Crash?
  {
    DecodeCrashIff(md, h);
    EnrichAppend(md, pre, h);
  }

  lemma CrashExtends(md: MasterData, a: seq<Hit>, post: seq<Hit>, hits: seq<Hit>)
    requires WellShaped(md) && Enrich(md, a).Crash? && a + post == hits
    ensures Enrich(md, hits).Crash?
  {
    EnrichCrashSticks(md, a, post);
  }

  lemma {:induction false} EnrichDone(md: MasterData, hits: seq<Hit>)
    requires WellShaped(md)
    ensures Enrich(md, hits).Done? ==>
      && |Enrich(md, hits).value| == |hits|
      && forall i :: 0 <= i < |hits| ==>
           Enrich(md, hits).value[i] == Record(md, hits[i])
  {
    if Enrich(md, hits).Done? {
      EnrichLength(md, hits);
      forall i | 0 <= i < |hits|
        ensures Enrich(md, hits).value[i] == Record(md, hits[i])
      {
        EnrichAt(md, hits, i);
      }
    }
  }

  lemma {:induction false} EnrichLength(md: MasterData, hits: seq<Hit>)
    requires WellShaped(md) && Enrich(md, hits).Done?
    ensures |Enrich(md, hits).value| == |hits|
    decreases |hits|
  {
    if |hits| > 0 {
      EnrichLength(md, hits[..|hits| - 1]);
    }
  }

  /** The record at position `i` is the `i`-th hit's. */
  lemma {:induction false} EnrichAt(md: MasterData, hits: seq<Hit>, i: nat)
    requires WellShaped(md) && Enrich(md, hits).Done? && i < |hits|
    ensures i < |Enrich(md, hits).value| && Enrich(md, hits).value[i] == Record(md, hits[i])
    decreases |hits|
  {
    var pre, last := hits[..|hits| - 1], hits[|hits| - 1];
    assert hits == pre + [last];
    EnrichAppend(md, pre, last);
    var before := Enrich(md, pre);
    assert before.Done?;
    EnrichLength(md, pre);
    assert Enrich(md, hits).value == before.value + [Record(md, last)];
    if i < |pre| {
      EnrichAt(md, pre, i);
      assert hits[i] == pre[i];
    }
  }

  /** The worker result slots after the replies so far: each reply fills its worker's slot, a later
      reply for the same worker overwriting an earlier one. */
  function Collect(n: nat, replies: seq<Reply>): (slots: seq<Option<seq<Hit>>>)
    requires forall k :: 0 <= k < |replies| ==> replies[k].workerIndex < n
    ensures |slots| == n
    decreases |replies|
  {
    if |replies| == 0 then seq(n, _ => None)
    else
      var r := replies[|replies| - 1];
      Collect(n, replies[..|replies| - 1])[r.workerIndex := Some(r.searchResult)]
  }

  /** Reference definition: the last reply worker `w` sent, if any. */
  function ReplyFor(replies: seq<Reply>, w: nat): Option<seq<Hit>>
    decreases |replies|
  {
    if |replies| == 0 then None
    else if replies[|replies| - 1].workerIndex == w then Some(replies[|replies| - 1].searchResult)
    else ReplyFor(replies[..|replies| - 1], w)
  }

  /** Reference definition: slot `w` holds the last reply of worker `w`. */
  function ByWorker(n: nat, replies: seq<Reply>): (slots: seq<Option<seq<Hit>>>)
    ensures |slots| == n
    ensures forall w :: 0 <= w < n ==> slots[w] == ReplyFor(replies, w)
  {
    seq(n, w requires 0 <= w < n => ReplyFor(replies, w))
  }

  lemma {:induction false} CollectIsReplyFor(n: nat, replies: seq<Reply>, w: nat)
    requires forall k :: 0 <= k < |replies| ==> replies[k].workerIndex < n
    requires w < n
    ensures Collect(n, replies)[w] == ReplyFor(replies, w)
    decreases |replies|
  {
    if |replies| > 0 {
      CollectIsReplyFor(n, replies[..|replies| - 1], w);
    }
  }

  predicate DistinctWorkers(replies: seq<Reply>) {
    forall i, j :: 0 <= i < j < |replies| ==> replies[i].workerIndex != replies[j].workerIndex
  }

  /** With one reply per worker, a worker's slot holds its reply, whatever came before or after. */
  lemma {:induction false} ReplyForDistinct(replies: seq<Reply>, w: nat)
    requires DistinctWorkers(replies)
    ensures forall r :: r in replies && r.workerIndex == w ==> ReplyFor(replies, w) == Some(r.searchResult)
    ensures (forall r :: r in replies ==> r.workerIndex != w) ==> ReplyFor(replies, w).None?
    decreases |replies|
  {
    if |replies| > 0 {
      var pre := replies[..|replies| - 1];
      assert DistinctWorkers(pre) by {
        forall i, j | 0 <= i < j < |pre|
          ensures pre[i].workerIndex != pre[j].workerIndex
        {
          assert pre[i] == replies[i] && pre[j] == replies[j];
        }
      }
      ReplyForDistinct(pre, w);
      var last := replies[|replies| - 1];
      assert replies == pre + [last];
      forall r | r in pre
        ensures r.workerIndex != last.workerIndex
      {
        var i :| 0 <= i < |pre| && pre[i] == r;
        assert replies[i] == r;
      }
    }
  }

  /** The slots do not depend on the order the replies arrive in, when each worker replies once. */
  lemma ArrivalOrderIrrelevant(n: nat, a: seq<Reply>, b: seq<Reply>)
    requires forall k :: 0 <= k < |a| ==> a[k].workerIndex < n
    requires multiset(a) == multiset(b)
    requires DistinctWorkers(a) && DistinctWorkers(b)
    ensures forall k :: 0 <= k < |b| ==> b[k].workerIndex < n
    ensures Collect(n, a) == Collect(n, b)
  {
    forall k | 0 <= k < |b|
      ensures b[k].workerIndex < n
    {
      assert b[k] in multiset(a);
    }
    forall w | 0 <= w < n
      ensures Collect(n, a)[w] == Collect(n, b)[w]
    {
      CollectIsReplyFor(n, a, w);
      CollectIsReplyFor(n, b, w);
      ReplyForDistinct(a, w);
      ReplyForDistinct(b, w);
      if r :| r in a && r.workerIndex == w {
        assert r in multiset(b);
      } else {
        forall r | r in b
          ensures r.workerIndex != w
        {
          assert r in multiset(a);
        }
      }
    }
  }

  /** What the promise returned by `search` settles to: `None` while it is pending; a thrown
      decode leaves it pending for good and is shown as a crash. Without initialisation it
      resolves to `[]` at once; otherwise it resolves when the reply count reaches the worker
      count, so never when there are no workers. */
  function SearchSpec(initialized: bool, md: MasterData, n: nat, replies: seq<Reply>): Option<Outcome<seq<SecMaster.Script>>>
    requires WellShaped(md)
    requires forall k :: 0 <= k < |replies| ==> replies[k].workerIndex < n
  {
    if !initialized then Some(Done([]))
    else if n == 0 || |replies| < n then None
    else Some(Enrich(md, Items(Collect(n, replies[..n]))))
  }

  /** When every worker has replied once, the result is the enriched hits of the workers in
      worker-index order, whatever order the replies came in. */
  lemma SearchSettlesInWorkerOrder(md: MasterData, n: nat, replies: seq<Reply>, reordered: seq<Reply>)
    requires WellShaped(md) && n > 0 && |replies| == n
    requires forall k :: 0 <= k < |replies| ==> replies[k].workerIndex < n
    requires DistinctWorkers(replies) && DistinctWorkers(reordered)
    requires multiset(reordered) == multiset(replies)
    ensures forall k :: 0 <= k < |reordered| ==> reordered[k].workerIndex < n
    ensures SearchSpec(true, md, n, reordered) == SearchSpec(true, md, n, replies)
    ensures SearchSpec(true, md, n, replies) == Some(Enrich(md, Items(ByWorker(n, replies))))
  {
    ArrivalOrderIrrelevant(n, replies, reordered);
    assert |reordered| == |multiset(reordered)| == n;
    assert replies[..n] == replies && reordered[..n] == reordered;
    forall w | 0 <= w < n
      ensures Collect(n, replies)[w] == ReplyFor(replies, w)
    {
      CollectIsReplyFor(n, replies, w);
    }
    assert Collect(n, replies) == ByWorker(n, replies);
  }

  /** The manager singleton. */
  class SearchManager {
    var state: ManagerState
    /** The `init` message of each spawned worker, in spawning order. */
    var workers: seq<WorkerInit>

    /** Initialises at once when the security master is loaded; otherwise waits for the
        initialisation event, whose handler is `Initialize`. */
    constructor(isLoaded: bool, searchIndex: SearchStringIndex)
      requires BandKeyed(searchIndex)
      ensures isLoaded ==> state == READY && workers == Inits(searchIndex)
      ensures !isLoaded ==> state == INIT && workers == []
    {
      state := INIT;
      workers := [];
      new;
      if isLoaded {
        Initialize(searchIndex);
        assert workers == [] + Inits(searchIndex);
      }
    }

    /** `initialize`: one worker per bucket in `Object.values` order, told its position. */
    method Initialize(searchIndex: SearchStringIndex)
      requires BandKeyed(searchIndex)
      modifies this
      ensures state == READY && workers == old(workers) + Inits(searchIndex)
    {
      state := READY;
      var chunks := Buckets(searchIndex);
      var index := 0;
      while index < |chunks|
        invariant 0 <= index <= |chunks|
        invariant state == READY
        invariant workers == old(workers) + Inits(searchIndex)[..index]
      {
        assert Inits(searchIndex)[..index + 1] == Inits(searchIndex)[..index] + [WorkerInit(chunks[index], index)];
        workers := workers + [WorkerInit(chunks[index], index)];
        index := index + 1;
      }
      assert Inits(searchIndex)[..|chunks|] == Inits(searchIndex);
    }

    /** `initialize` with each worker told its bucket's band key instead of its position. */
    method InitializeByBand(searchIndex: SearchStringIndex)
      requires BandKeyed(searchIndex)
      modifies this
      ensures state == READY && workers == old(workers) + InitsByBand(searchIndex)
    {
      state := READY;
      var bands := BandKeys(searchIndex);
      var p := 0;
      while p < |bands|
        invariant 0 <= p <= |bands|
        invariant state == READY
        invariant workers == old(workers) + InitsByBand(searchIndex)[..p]
      {
        assert InitsByBand(searchIndex)[..p + 1] == InitsByBand(searchIndex)[..p] + [WorkerInit(searchIndex[bands[p]], bands[p])];
        workers := workers + [WorkerInit(searchIndex[bands[p]], bands[p])];
        p := p + 1;
      }
      assert InitsByBand(searchIndex)[..|bands|] == InitsByBand(searchIndex);
    }

    /** `search`: the replies are handled in arrival order; each stores its worker's result and the
        one that brings the count to the number of workers flattens the slots. Each worker replies
        with the index it was initialised with. Nothing of the manager changes. */
    method Search(initialized: bool, md: MasterData, replies: seq<Reply>)
      returns (result: Option<Outcome<seq<SecMaster.Script>>>)
      requires WellShaped(md)
      requires forall k :: 0 <= k < |replies| ==> replies[k].workerIndex < |workers|
      ensures result == SearchSpec(initialized, md, |workers|, replies)
    {
      result := None;
      if !initialized {
        result := Some(Done([]));
      }
      var n := |workers|;
      var workerResults: seq<Option<seq<Hit>>> := seq(n, _ => None);
      var resultCount := 0;
      var k := 0;
      while k < |replies|
        invariant 0 <= k <= |replies|
        invariant resultCount == k
        invariant workerResults == Collect(n, replies[..k])
        invariant result == SearchSpec(initialized, md, n, replies[..k])
      {
        assert replies[..k + 1][..k] == replies[..k];
        resultCount := resultCount + 1;
        var reply := replies[k];
        workerResults := workerResults[reply.workerIndex := Some(reply.searchResult)];
        if resultCount == n {
          var searchResult := FlattenResult(md, workerResults);
          if result.None? {
            result := Some(searchResult);
          }
        }
        if n <= k {
          assert replies[..k + 1][..n] == replies[..n] == replies[..k][..n];
        } else if k + 1 == n {
          assert replies[..k + 1][..n] == replies[..k + 1];
        }
        k := k + 1;
      }
      assert replies[..|replies|] == replies;
    }

    /** `_flattenResult`: every hit of every present slot, in slot order, decoded and spread. */
    static method FlattenResult(md: MasterData, workerResults: seq<Option<seq<Hit>>>)
      returns (result: Outcome<seq<SecMaster.Script>>)
      requires WellShaped(md)
      ensures result == Enrich(md, Items(workerResults))
    {
      var searchResult: seq<SecMaster.Script> := [];
      ghost var seen: seq<Hit> := [];
      assert workerResults[..0] == [];
      var i := 0;
      while i < |workerResults|
        invariant 0 <= i <= |workerResults|
        invariant seen == Items(workerResults[..i])
        invariant Enrich(md, seen) == Done(searchResult)
      {
        var workerResult := if workerResults[i].Some? then workerResults[i].value else [];
        ItemsStep(workerResults, i);
        var pushed := PushSlot(md, seen, workerResult, searchResult);
        seen := seen + workerResult;
        if pushed.Crash? {
          SlotCrash(md, workerResults, i);
          return Crash;
        }
        searchResult := pushed.value;
        i := i + 1;
      }
      assert workerResults[..|workerResults|] == workerResults;
      result := Done(searchResult);
    }

    /** The inner `forEach`: the hits of one slot pushed after the results so far. */
    static method PushSlot(md: MasterData, ghost before: seq<Hit>, workerResult: seq<Hit>, searchResult: seq<SecMaster.Script>)
      returns (result: Outcome<seq<SecMaster.Script>>)
      requires WellShaped(md)
      requires Enrich(md, before) == Done(searchResult)
      ensures result == Enrich(md, before + workerResult)
    {
      var pushed := searchResult;
      PrefixStep(before, workerResult, 0);
      var j := 0;
      while j < |workerResult|
        invariant 0 <= j <= |workerResult|
        invariant Enrich(md, before + workerResult[..j]) == Done(pushed)
      {
        var next := PushHit(md, before + workerResult[..j], workerResult[j], pushed);
        PrefixStep(before, workerResult, j + 1);
        if next.Crash? {
          CrashAt(md, before, workerResult, j);
          return Crash;
        }
        pushed := next.value;
        j := j + 1;
      }
      PrefixStep(before, workerResult, |workerResult|);
      result := Done(pushed);
    }

    /** The `forEach` callback: one hit decoded and its spread pushed, or the decode's throw. */
    static method PushHit(md: MasterData, ghost seen: seq<Hit>, resultItem: Hit, searchResult: seq<SecMaster.Script>)
      returns (result: Outcome<seq<SecMaster.Script>>)
      requires WellShaped(md)
      requires Enrich(md, seen) == Done(searchResult)
      ensures result == Enrich(md, seen + [resultItem])
    {
      var script := SecMaster.GetScriptByScriptIdIndexValue(md, resultItem.obj.data, []);
      EnrichAppend(md, seen, resultItem);
      if script.Crash? {
        return Crash;
      }
      result := Done(searchResult + [Spread(script.value)]);
    }
  }

  lemma ItemsStep(workerResults: seq<Option<seq<Hit>>>, i: nat)
    requires i < |workerResults|
    ensures Items(workerResults[..i + 1]) ==
      Items(workerResults[..i]) + (if workerResults[i].Some? then workerResults[i].value else [])
  {
    assert workerResults[..i + 1][..i] == workerResults[..i];
  }

  lemma SlotCrash(md: MasterData, workerResults: seq<Option<seq<Hit>>>, i: nat)
    requires WellShaped(md) && i < |workerResults| && Enrich(md, Items(workerResults[..i + 1])).Crash?
    ensures Enrich(md, Items(workerResults)).Crash?
  {
    ItemsAppend(workerResults[..i + 1], workerResults[i + 1..]);
    assert workerResults == workerResults[..i + 1] + workerResults[i + 1..];
    EnrichCrashSticks(md, Items(workerResults[..i + 1]), Items(workerResults[i + 1..]));
  }

  /** The hits so far grow one hit at a time. */
  lemma PrefixStep(before: seq<Hit>, w: seq<Hit>, j: nat)
    requires j <= |w|
    ensures j == 0 ==> before + w[..j] == before
    ensures j == |w| ==> before + w[..j] == before + w
    ensures 0 < j ==> before + w[..j] == (before + w[..j - 1]) + [w[j - 1]]
  {
    if 0 < j {
      assert w[..j] == w[..j - 1] + [w[j - 1]];
    }
  }

  lemma CrashAt(md: MasterData, before: seq<Hit>, w: seq<Hit>, j: nat)
    requires WellShaped(md) && j < |w| && Enrich(md, before + w[..j + 1]).Crash?
    ensures Enrich(md, before + w).Crash?
  {
    assert before + w == (before + w[..j + 1]) + w[j + 1..];
    EnrichCrashSticks(md, before + w[..j + 1], w[j + 1..]);
  }
}
