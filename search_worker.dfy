/** The search worker: a band's records split into at most two sub-chunks by priority, searched
    chunk by chunk and ranked by score, then priority. */
module SearchWorkers {
  import opened Js
  import opened Records
  import opened ChunkBands
  import opened StableSort

  /** One fuzzy-match result: the matched record and its score (scores are modelled as integers). */
  datatype Hit = Hit(obj: SearchEntry, score: int)

  /** The `{ searchResult, workerIndex }` message a worker posts back. */
  datatype Reply = Reply(searchResult: seq<Hit>, workerIndex: nat)

  /** The fuzzy matcher, given a query and a chunk; its ranking and its result limit are its own. */
  type Matcher = (string, seq<SearchEntry>) -> seq<Hit>

  /** One sub-chunk of a band: an inclusive priority range and its position. */
  datatype SubRange = SubRange(min: int, max: int, index: nat)

  /** A large band is split into this many sub-chunks. */
  const SubChunkCount: nat := 2

  /** `Math.ceil(x / 2)`; Dafny's division rounds toward negative infinity for a positive divisor. */
  function CeilHalf(x: int): (r: int)
    ensures x <= 2 * r <= x + 1
  {
    -((-x) / 2)
  }

  /** The two sub-ranges of a band. */
  function SubRanges(m: ChunkMeta): (rs: seq<SubRange>)
    ensures |rs| == SubChunkCount
  {
    var d := CeilHalf(m.max - m.min);
    seq(SubChunkCount, c requires 0 <= c < SubChunkCount => SubRange(m.min + d * c, m.min + d * (c + 1), c))
  }

  /** The two sub-ranges start at the band's minimum, share their boundary, and together reach the
      band's maximum; each is at position `index`. */
  lemma SubRangesCoverBand(m: ChunkMeta)
    requires m.min <= m.max
    ensures var rs := SubRanges(m);
      && rs[0].min == m.min && rs[0].max == rs[1].min && rs[1].max >= m.max
      && rs[0].min <= rs[0].max && rs[1].min <= rs[1].max
      && rs[0].index == 0 && rs[1].index == 1
  {
  }

  /** `searchPriority >= min && searchPriority <= max`: a null priority compares as 0. */
  function PriorityNumber(p: Option<int>): int {
    if p.Some? then p.value else 0
  }

  predicate Within(e: SearchEntry, r: SubRange) {
    r.min <= PriorityNumber(e.searchPriority) <= r.max
  }

  /** The records of `data` within `r`, in input order. */
  function Select(data: seq<SearchEntry>, r: SubRange): (es: seq<SearchEntry>)
    ensures |es| <= |data|
    decreases |data|
  {
    if |data| == 0 then []
    else Select(data[..|data| - 1], r) + (if Within(data[|data| - 1], r) then [data[|data| - 1]] else [])
  }

  /** A sub-chunk slot: no records leave a hole in the chunk array. */
  function Slot(es: seq<SearchEntry>): (o: Option<seq<SearchEntry>>)
    ensures o.Some? <==> es != []
    ensures o.Some? ==> o.value == es
  {
    if es == [] then None else Some(es)
  }

  /** `_getChunks` as a value: one chunk for a small input, else the two sub-range selections.
      A large input needs a band for the worker's index. */
  function ChunksSpec(data: seq<SearchEntry>, index: nat): (chunks: seq<Option<seq<SearchEntry>>>)
    requires |data| <= MaxFuseChunkSize || index < |WorkerChunkMeta|
  {
    if |data| <= MaxFuseChunkSize then [Some(data)]
    else
      var rs := SubRanges(WorkerChunkMeta[index]);
      [Slot(Select(data, rs[0])), Slot(Select(data, rs[1]))]
  }

  /** A record is selected exactly when it is in the input and within the range. */
  lemma {:induction false} SelectMembers(data: seq<SearchEntry>, r: SubRange, e: SearchEntry)
    ensures e in Select(data, r) <==> e in data && Within(e, r)
    decreases |data|
  {
    if |data| > 0 {
      var pre := data[..|data| - 1];
      SelectMembers(pre, r, e);
      assert data == pre + [data[|data| - 1]];
    }
  }

  /** The chunk's existing records, `[]` for a hole. */
  function Contents(o: Option<seq<SearchEntry>>): seq<SearchEntry> {
    if o.Some? then o.value else []
  }

  /** The slot of a prefix one longer: the new record is appended exactly when it is within the
      range, the slot being created on first use. */
  lemma SlotStep(data: seq<SearchEntry>, i: nat, r: SubRange)
    requires i < |data|
    ensures Slot(Select(data[..i + 1], r))
      == if Within(data[i], r) then Some(Contents(Slot(Select(data[..i], r))) + [data[i]])
         else Slot(Select(data[..i], r))
  {
    assert data[..i + 1][..i] == data[..i];
    var pre := Select(data[..i], r);
    assert Contents(Slot(pre)) == pre;
    if Within(data[i], r) {
      assert Select(data[..i + 1], r) == pre + [data[i]];
    } else {
      assert Select(data[..i + 1], r) == pre + [] == pre;
    }
  }

  /** A small input is searched whole; a large one, as the records within each sub-range, the two
      sub-ranges being consecutive halves starting at the band's minimum. */
  lemma ChunksSelectByPriority(data: seq<SearchEntry>, index: nat, e: SearchEntry)
    requires |data| <= MaxFuseChunkSize || index < |WorkerChunkMeta|
    ensures |data| <= MaxFuseChunkSize ==> ChunksSpec(data, index) == [Some(data)]
    ensures |data| > MaxFuseChunkSize ==>
      var rs := SubRanges(WorkerChunkMeta[index]);
      var chunks := ChunksSpec(data, index);
      && |chunks| == 2
      && rs[0].min == WorkerChunkMeta[index].min && rs[0].max == rs[1].min
      && rs[1].max >= WorkerChunkMeta[index].max
      && forall c :: 0 <= c < 2 ==>
           (chunks[c].Some? && e in chunks[c].value <==> e in data && Within(e, rs[c]))
  {
    if |data| > MaxFuseChunkSize {
      var rs := SubRanges(WorkerChunkMeta[index]);
      SubRangesCoverBand(WorkerChunkMeta[index]);
      SelectMembers(data, rs[0], e);
      SelectMembers(data, rs[1], e);
    }
  }

  /** A record whose priority lies in the band of the worker's index is searched. */
  lemma InBandRecordIsSearched(data: seq<SearchEntry>, index: nat, e: SearchEntry)
    requires index < |WorkerChunkMeta|
    requires e in data && e.searchPriority.Some? && InBand(WorkerChunkMeta[index], e.searchPriority.value)
    ensures exists c :: 0 <= c < |ChunksSpec(data, index)| && ChunksSpec(data, index)[c].Some? &&
                        e in ChunksSpec(data, index)[c].value
  {
    var chunks := ChunksSpec(data, index);
    if |data| <= MaxFuseChunkSize {
      assert chunks[0] == Some(data);
    } else {
      ChunksSelectByPriority(data, index, e);
      var rs := SubRanges(WorkerChunkMeta[index]);
      if e.searchPriority.value <= rs[0].max {
        assert Within(e, rs[0]);
        assert chunks[0].Some? && e in chunks[0].value;
      } else {
        assert Within(e, rs[1]);
        assert chunks[1].Some? && e in chunks[1].value;
      }
    }
  }

  /** In a large band a record at the shared boundary of the sub-ranges is in both chunks, so it
      can be matched twice; a record outside the band, or with a null priority, is in neither. */
  lemma LargeBandEdges(data: seq<SearchEntry>, index: nat, e: SearchEntry)
    requires |data| > MaxFuseChunkSize && index < |WorkerChunkMeta| && e in data
    ensures var m := WorkerChunkMeta[index];
      var chunks := ChunksSpec(data, index);
      && (e.searchPriority == Some(SubRanges(m)[0].max) ==>
            chunks[0].Some? && e in chunks[0].value && chunks[1].Some? && e in chunks[1].value)
      && (e.searchPriority.None? || e.searchPriority.value < m.min || e.searchPriority.value > SubRanges(m)[1].max ==>
            forall c :: 0 <= c < 2 ==> !(chunks[c].Some? && e in chunks[c].value))
  {
    ChunksSelectByPriority(data, index, e);
  }

  /** The matches of every present chunk, concatenated chunk by chunk. */
  function Matches(go: Matcher, searchString: string, fuses: seq<Option<seq<SearchEntry>>>): seq<Hit>
    decreases |fuses|
  {
    if |fuses| == 0 then []
    else
      var last := fuses[|fuses| - 1];
      Matches(go, searchString, fuses[..|fuses| - 1]) + (if last.Some? then go(searchString, last.value) else [])
  }

  /** `a.obj.searchPriority - b.obj.searchPriority`: a null priority counts as 0. */
  function PriorityKey(h: Hit): int {
    PriorityNumber(h.obj.searchPriority)
  }

  /** `b.score - a.score`: higher scores first. */
  function ScoreKey(h: Hit): int {
    -h.score
  }

  /** The two stable sorts: by priority, then by score. */
  function Ranked(hits: seq<Hit>): (r: seq<Hit>)
    ensures |r| == |hits|
  {
    SortBy(SortBy(hits, PriorityKey), ScoreKey)
  }

  /** Each hit paired with its position in the concatenated matches. */
  function Tag(hits: seq<Hit>): (t: seq<(Hit, nat)>)
    ensures |t| == |hits| && forall i :: 0 <= i < |hits| ==> t[i] == (hits[i], i)
  {
    seq(|hits|, i requires 0 <= i < |hits| => (hits[i], i))
  }

  /** The final order: higher score first, then lower priority, then earlier position. */
  predicate RankedBefore(a: (Hit, nat), b: (Hit, nat)) {
    a.0.score > b.0.score ||
    (a.0.score == b.0.score &&
      (PriorityKey(a.0) < PriorityKey(b.0) || (PriorityKey(a.0) == PriorityKey(b.0) && a.1 < b.1)))
  }

  predicate EarlierTag(a: (Hit, nat), b: (Hit, nat)) {
    a.1 < b.1
  }

  /** The order after the first pass: lower priority first, then earlier position. */
  predicate PriorityThenTag(a: (Hit, nat), b: (Hit, nat)) {
    PriorityKey(a.0) < PriorityKey(b.0) || (PriorityKey(a.0) == PriorityKey(b.0) && a.1 < b.1)
  }

  lemma TagIsInOrder(hits: seq<Hit>)
    ensures forall i, j :: 0 <= i < j < |Tag(hits)| ==> EarlierTag(Tag(hits)[i], Tag(hits)[j])
  {
  }

  lemma FirstPassOrder(r1: seq<(Hit, nat)>)
    requires OrderedByKeyThen(r1, OnFirst(PriorityKey), EarlierTag)
    ensures forall i, j :: 0 <= i < j < |r1| ==> PriorityThenTag(r1[i], r1[j])
  {
  }

  lemma SecondPassOrder(r: seq<(Hit, nat)>)
    requires OrderedByKeyThen(r, OnFirst(ScoreKey), PriorityThenTag)
    ensures forall i, j :: 0 <= i < j < |r| ==> RankedBefore(r[i], r[j])
  {
  }

  /** The ranked result is a rearrangement of the matches, with positions attached, in which every
      earlier hit ranks strictly before every later one: by score descending, then priority
      ascending, then position in the concatenation. */
  lemma RankedOrder(hits: seq<Hit>)
    ensures var t := Tag(hits);
      var r := SortBy(SortBy(t, OnFirst(PriorityKey)), OnFirst(ScoreKey));
      && Ranked(hits) == Untag(r)
      && multiset(r) == multiset(t)
      && forall i, j :: 0 <= i < j < |r| ==> RankedBefore(r[i], r[j])
  {
    var t := Tag(hits);
    TagIsInOrder(hits);
    SortByKeepsOrderOfTies(t, OnFirst(PriorityKey), EarlierTag);
    var r1 := SortBy(t, OnFirst(PriorityKey));
    FirstPassOrder(r1);
    SortByKeepsOrderOfTies(r1, OnFirst(ScoreKey), PriorityThenTag);
    var r := SortBy(r1, OnFirst(ScoreKey));
    SecondPassOrder(r);
    SortByPermutes(t, OnFirst(PriorityKey));
    SortByPermutes(r1, OnFirst(ScoreKey));
    RankedIsUntagged(hits);
  }

  lemma RankedIsUntagged(hits: seq<Hit>)
    ensures Ranked(hits) == Untag(SortBy(SortBy(Tag(hits), OnFirst(PriorityKey)), OnFirst(ScoreKey)))
  {
    var t := Tag(hits);
    SortByIgnoresTags(t, PriorityKey);
    SortByIgnoresTags(SortBy(t, OnFirst(PriorityKey)), ScoreKey);
    assert Untag(t) == hits;
  }

  /** One web worker's `SearchWorker` instance. */
  class SearchWorker {
    /** The sub-chunks; `None` is a hole, which `forEach` skips. */
    var fuses: seq<Option<seq<SearchEntry>>>
    /** The index the worker was initialised with; it selects its band. */
    var index: nat

    /** The `init` message: chunk the records by the band of `index`. A large input with an index
        past the band table makes `_getChunks` throw. */
    constructor(searchData: seq<SearchEntry>, index: nat)
      requires |searchData| <= MaxFuseChunkSize || index < |WorkerChunkMeta|
      ensures this.index == index && fuses == ChunksSpec(searchData, index)
    {
      this.index := index;
      fuses := [];
      new;
      var chunks := GetChunks(searchData);
      // Each present chunk is stored at its own position; the warm-up match is left out.
      fuses := chunks;
    }

    /** `_getChunks`. */
    method GetChunks(searchData: seq<SearchEntry>) returns (chunks: seq<Option<seq<SearchEntry>>>)
      requires |searchData| <= MaxFuseChunkSize || index < |WorkerChunkMeta|
      ensures chunks == ChunksSpec(searchData, index)
    {
      if |searchData| <= MaxFuseChunkSize {
        return [Some(searchData)];
      }
      var meta := WorkerChunkMeta[index];
      var chunkMeta := SplitBand(meta);
      chunks := Distribute(searchData, chunkMeta);
    }

    /** The `chunkMeta` loop of `_getChunks`: the band halved at `Math.ceil` of half its width. */
    static method SplitBand(meta: ChunkMeta) returns (chunkMeta: seq<SubRange>)
      ensures chunkMeta == SubRanges(meta)
    {
      var priorityDiff := CeilHalf(meta.max - meta.min);
      chunkMeta := [];
      var k := 0;
      while k < SubChunkCount
        invariant 0 <= k <= SubChunkCount
        invariant chunkMeta == SubRanges(meta)[..k]
      {
        chunkMeta := chunkMeta + [SubRange(meta.min + priorityDiff * k, meta.min + priorityDiff * (k + 1), k)];
        k := k + 1;
      }
    }

    /** The `searchData` loop of `_getChunks`: each sub-chunk gathers the records within its range. */
    static method Distribute(searchData: seq<SearchEntry>, chunkMeta: seq<SubRange>)
      returns (chunks: seq<Option<seq<SearchEntry>>>)
      requires |chunkMeta| == SubChunkCount
      requires forall c :: 0 <= c < SubChunkCount ==> chunkMeta[c].index == c
      ensures chunks == [Slot(Select(searchData, chunkMeta[0])), Slot(Select(searchData, chunkMeta[1]))]
    {
      chunks := [None, None];
      var i := 0;
      while i < |searchData|
        invariant 0 <= i <= |searchData|
        invariant chunks == [Slot(Select(searchData[..i], chunkMeta[0])), Slot(Select(searchData[..i], chunkMeta[1]))]
      {
        SlotStep(searchData, i, chunkMeta[0]);
        SlotStep(searchData, i, chunkMeta[1]);
        chunks := Place(chunks, chunkMeta, searchData[i]);
        i := i + 1;
      }
      assert searchData[..|searchData|] == searchData;
    }

    /** The inner `forEach` of `_getChunks`: one record appended to every sub-chunk whose range
        holds its priority. */
    static method Place(chunks: seq<Option<seq<SearchEntry>>>, chunkMeta: seq<SubRange>, data: SearchEntry)
      returns (placed: seq<Option<seq<SearchEntry>>>)
      requires |chunks| == |chunkMeta| == SubChunkCount
      requires forall c :: 0 <= c < SubChunkCount ==> chunkMeta[c].index == c
      ensures |placed| == SubChunkCount
      ensures forall c :: 0 <= c < SubChunkCount ==>
        placed[c] == if Within(data, chunkMeta[c]) then Some(Contents(chunks[c]) + [data]) else chunks[c]
    {
      var searchPriority := PriorityNumber(data.searchPriority);
      placed := chunks;
      var c := 0;
      while c < SubChunkCount
        invariant 0 <= c <= SubChunkCount
        invariant |placed| == SubChunkCount
        invariant forall c' :: 0 <= c' < c ==>
          placed[c'] == if Within(data, chunkMeta[c']) then Some(Contents(chunks[c']) + [data]) else chunks[c']
        invariant forall c' :: c <= c' < SubChunkCount ==> placed[c'] == chunks[c']
      {
        var chunk := chunkMeta[c];
        if searchPriority >= chunk.min && searchPriority <= chunk.max {
          var existing := Contents(placed[chunk.index]);
          placed := placed[chunk.index := Some(existing + [data])];
        }
        c := c + 1;
      }
    }

    /** `search`: the matches of each present chunk in chunk order, ranked. Nothing changes. */
    method Search(searchString: string, go: Matcher) returns (searchResult: seq<Hit>)
      ensures searchResult == Ranked(Matches(go, searchString, fuses))
    {
      searchResult := [];
      var i := 0;
      while i < |fuses|
        invariant 0 <= i <= |fuses|
        invariant searchResult == Matches(go, searchString, fuses[..i])
      {
        assert fuses[..i + 1][..i] == fuses[..i];
        if fuses[i].Some? {
          var results := go(searchString, fuses[i].value);
          searchResult := searchResult + results;
        }
        i := i + 1;
      }
      assert fuses[..|fuses|] == fuses;
      searchResult := SortBy(searchResult, PriorityKey);
      searchResult := SortBy(searchResult, ScoreKey);
    }

    /** The `search` message: the ranked matches, tagged with this worker's index. */
    method Respond(searchString: string, go: Matcher) returns (reply: Reply)
      ensures reply == Reply(Ranked(Matches(go, searchString, fuses)), index)
    {
      var searchResult := Search(searchString, go);
      reply := Reply(searchResult, index);
    }
  }
}
